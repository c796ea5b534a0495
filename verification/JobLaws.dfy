/** What a caller can count on of one job, situation by situation: how it starts, how it is stopped and
    what its end then says.  A situation is told by what is known of the job when the event comes. */
module JobLaws {
  import opened JobLifecycle

  /** Nobody has asked the job to stop, and nothing is wrong with its stdin. */
  predicate Unstopped(j: Job) {
    && !j.stop.canceled && !j.stop.terminationRequested && j.stop.exitCode == NoExit
    && !j.stdin.failed && !j.stdin.incomplete
  }

  /** Nothing of the process or the request is left. */
  predicate AllGone(j: Job) { j.end.exited && j.end.closed }

  /** The job has just ended, and that is being persisted. */
  predicate EndsNow(j: Job, k: Job, status: Status) {
    !Terminal(j.status) && k.status == status && Terminal(status) && k.end.tails == j.end.tails + 1
  }

  function KnownOr(e: Exit, code: int): Exit { if e == NoExit then Exit(code) else e }

  // ------------------------------------------------------------------ starting

  /** A job with its slot starts once its row is recorded; a deferred one waits for its release. */
  lemma StartsInline(kind: Kind, payload: bool)
    ensures var j := Step(NewJob(kind, Loose, false, payload), Recorded(true));
            if kind.deferred then
              j.status == Queued && j.phase == NotLaunched && j.slot.permit == Attached && !j.slot.stranded
              && Enabled(j, DeferredRelease) && Starts(Step(j, DeferredRelease), payload)
            else Starts(j, payload)
  {
  }

  predicate Starts(j: Job, payload: bool) {
    && j.status == Running && j.phase == Starting && j.slot.permit == Attached && j.slot.releases == 0
    && j.intake.listed && Unstopped(j) && j.end == End(false, false, false, 0)
    && j.stdin.delivery == (if payload then NotStarted else NotSupplied) && !j.stdin.reported
  }

  /** A queued one starts when the slot comes, before or after its row is recorded. */
  lemma StartsFromQueue(kind: Kind, payload: bool)
    ensures var j0 := NewJob(kind, Waiting, false, payload);
            var late := Step(Step(j0, Recorded(true)), QueueGrant);
            var early := Step(Step(j0, QueueGrant), Recorded(true));
            if kind.deferred then
              late.status == Queued && late.slot.permit == Attached && Starts(Step(late, DeferredRelease), payload)
              && Starts(Step(early, DeferredRelease), payload)
              && Starts(Step(Step(Step(j0, Recorded(true)), DeferredRelease), QueueGrant), payload)
            else Starts(late, payload) && Starts(early, payload)
  {
  }

  /** A job whose row could not be recorded is dropped from the table; its slot goes back, or its place
      in the queue. */
  lemma NotRecorded(kind: Kind, payload: bool, disposed: bool)
    ensures var j := Step(NewJob(kind, Loose, disposed, payload), Recorded(false));
            !j.intake.listed && j.phase == Over && j.slot.permit == Returned && j.slot.releases == 1
    ensures var j := Step(NewJob(kind, Waiting, disposed, payload), Recorded(false));
            !j.intake.listed && j.phase == Over && j.slot.permit == Dropped && j.slot.releases == 0
  {
  }

  /** After shutdown began nothing starts: the job fails with exit code 1, and its slot goes back. */
  lemma NothingStartsAfterShutdown(kind: Kind, payload: bool)
    requires !kind.deferred
    ensures var j0 := NewJob(kind, Waiting, true, payload);
            var j := Step(Step(j0, Recorded(true)), QueueGrant);
            && j.status == Failed && j.phase == NotLaunched && j.stop.exitCode == Exit(1) && AllGone(j)
            && Step(j, Persisted(true)).slot.permit == Returned
  {
  }

  /** A slot that comes for a job which has already ended goes straight back. */
  lemma LateSlotGoesBack(j: Job)
    requires Ok(j) && j.slot.permit == Waiting && Terminal(j.status) && (j.kind.deferred ==> j.intake.launchReleased)
    ensures var k := Step(j, QueueGrant);
            k.status == j.status && k.phase == j.phase && k.slot.permit == Returned && k.slot.releases == 1
  {
  }

  // ------------------------------------------------------------------ launching

  /** A launch that nothing stands in the way of goes on to the marking, or the request. */
  lemma LaunchGoesOn(j: Job)
    requires j.phase == Starting && j.status == Running && Unstopped(j)
    ensures j.kind.http ==> forall spawned :: Step(j, Progressed(spawned)) == j.(phase := Fired)
    ensures !j.kind.http && !j.intake.disposed ==> Step(j, Progressed(true)) == j.(phase := Marking)
  {
  }

  /** One that cannot go on fails: with the code of whoever asked it to stop, or 1, or else with 126. */
  lemma LaunchFails(j: Job, spawned: bool)
    requires Ok(j) && j.phase == Starting && j.status == Running && !j.kind.http
    requires !spawned || j.intake.disposed || j.stop.terminationRequested
    ensures var k := Step(j, Progressed(spawned));
            && EndsNow(j, k, Failed) && k.phase == Over && AllGone(k)
            && k.stop.exitCode == if j.stop.terminationRequested then KnownOr(j.stop.exitCode, 1) else Exit(126)
  {
  }

  /** Once the row is marked the child is live and its stdin, if there is one, under way; a row that could
      not be marked, or a child without a stdin pipe for its payload, is asked to stop with code 1. */
  lemma MarkedAsLive(j: Job, marked: bool, pipe: bool)
    requires Ok(j) && j.phase == Marking && j.status == Running && Unstopped(j)
    ensures var k := Step(j, Marked(marked, pipe)); var payload := j.stdin.delivery == NotStarted;
            && k.phase == Live && k.status == Running && k.slot == j.slot && k.end == j.end
            && k.stdin.delivery == (if marked && pipe && payload then Pending else j.stdin.delivery)
            && (k.stdin.failed <==> marked && payload && !pipe)
            && k.stop == if !marked || (payload && !pipe) then Stop(false, true, Exit(1)) else j.stop
  {
  }

  // ------------------------------------------------------------------ stdin

  /** The payload is accepted once, and a failure reported once: a closed pipe marks the request as
      incomplete, anything else asks the job to stop with code 1. */
  lemma StdinOutcome(j: Job, closure: bool)
    requires Ok(j) && j.phase == Live && j.status == Running && Unstopped(j) && !j.stdin.reported
    requires j.stdin.delivery == Pending || j.stdin.delivery == Succeeded
    ensures var k := Step(j, StdinError(closure));
            && k.stdin.delivery == Broken && k.stdin.reported && k.status == Running && k.end == j.end
            && k.stdin.incomplete == closure && k.stdin.failed == !closure
            && k.stop == (if closure then j.stop else Stop(false, true, Exit(1)))
            && forall again :: Step(k, StdinError(again)) == k
    ensures j.stdin.delivery == Pending ==> Step(j, StdinAccepted) == j.(stdin := j.stdin.(delivery := Succeeded))
    ensures Step(Step(j, StdinError(closure)), StdinAccepted).stdin.delivery == Broken
  {
  }

  /** A failure of the pipe says nothing once the job has exited or was asked to stop. */
  lemma StdinAfterStop(j: Job, closure: bool)
    requires j.end.exited || j.stop.canceled || j.stop.terminationRequested
    requires Enabled(j, StdinError(closure))
    ensures var k := Step(j, StdinError(closure));
            k.stop == j.stop && k.stdin.failed == j.stdin.failed && k.stdin.incomplete == j.stdin.incomplete
            && k.stdin.delivery == Broken && k.stdin.reported && k.status == j.status
  {
  }

  // ------------------------------------------------------------------ stopping

  /** Each stop of a live job records its code; outside Kit execution an idle timeout and an overflow end
      it at once, and a shutdown leaves the end to the close. */
  lemma StopsRecord(j: Job)
    requires j.phase == Live && j.status == Running
    ensures var k := Step(j, Overflow);
            k.stop == j.stop.(terminationRequested := true, exitCode := Exit(126))
            && (if j.kind.kit then k.status == Running && k.end == j.end else EndsNow(j, k, Failed))
    ensures var k := Step(j, IdleTimeout);
            if j.stop.terminationRequested then k == j
            else
              k.stop == j.stop.(terminationRequested := true, exitCode := Exit(125))
              && (if j.kind.kit then k.status == Running && k.end == j.end else EndsNow(j, k, Failed))
    ensures j.intake.disposed && j.intake.listed ==>
              Step(j, DisposeKill) == j.(stop := j.stop.(terminationRequested := true, exitCode := Exit(1)))
    ensures !j.intake.disposed ==> Step(j, DisposeBegin) == j.(intake := j.intake.(disposed := true))
  {
  }

  /** A stop comes too late for a job that has ended. */
  lemma StopsComeTooLate(j: Job)
    requires Terminal(j.status)
    ensures Enabled(j, Overflow) ==> Step(j, Overflow) == j
    ensures Enabled(j, IdleTimeout) ==> Step(j, IdleTimeout) == j
    ensures Enabled(j, DisposeKill) ==> Step(j, DisposeKill) == j
    ensures Enabled(j, DeadPid) ==> Step(j, DeadPid) == j
    ensures Enabled(j, Cancel) ==> Step(j, Cancel) == j
    ensures Enabled(j, DisposeBegin) ==> Step(j, DisposeBegin) == j.(intake := j.intake.(disposed := true))
  {
  }

  /** Shutdown fails a job that still waits, with exit code 1, and takes it out of the queue. */
  lemma ShutdownFailsQueued(j: Job)
    requires Ok(j) && j.status == Queued && j.intake.listed && !j.intake.disposed
    ensures var k := Step(j, DisposeBegin);
            && EndsNow(j, k, Failed) && AllGone(k) && k.stop.exitCode == Exit(1) && k.intake.disposed
            && k.slot.permit == if j.slot.permit == Waiting && !j.intake.recording then Dropped else j.slot.permit
  {
  }

  /** A cancellation ends a waiting job, a request, and a process outside Kit execution; it gives back the
      slot of a job that had not started, waits for the close of a Kit child, and does nothing while a
      process is being started. */
  lemma CancelDoes(j: Job)
    requires Ok(j) && Enabled(j, Cancel)
    ensures var k := Step(j, Cancel);
            && (j.status == Queued ==>
                  && EndsNow(j, k, Canceled) && AllGone(k) && k.stop.canceled
                  && k.slot.permit == (match j.slot.permit
                                       case Attached => Returned
                                       case Waiting => if j.intake.recording then Waiting else Dropped
                                       case _ => j.slot.permit))
            && (j.status == Running && !j.kind.http && j.phase == Starting ==> k == j)
            && (j.status == Running && !j.kind.http && j.phase != Starting ==>
                  && k.stop.canceled && k.slot == j.slot
                  && (if j.kind.kit then k.status == Running && k.stop.terminationRequested && k.end == j.end
                      else EndsNow(j, k, Canceled)))
            && (j.status == Running && j.kind.http ==> EndsNow(j, k, Canceled) && k.stop.canceled && k.slot == j.slot)
  {
  }

  /** Cancelling a deferred launch is a cancellation, and settles whether it will be released. */
  lemma DeferredCancelDoes(j: Job)
    requires Enabled(j, DeferredCancel)
    ensures var k := Step(j, DeferredCancel);
            && k == Step(j, Cancel).(intake := k.intake) && k.intake == j.intake.(launchReleased := true)
            && !Enabled(k, DeferredCancel) && !Enabled(k, DeferredRelease)
    ensures !Enabled(Step(j, DeferredRelease), DeferredRelease)
  {
  }

  /** When the world and the gateway's timers can come: a child is watched from its spawn to its end, a
      listed job can be cancelled at any time, and shutdown happens once and then stops what runs. */
  lemma WhatCanCome(j: Job)
    ensures j.phase == Live ==>
              Enabled(j, IdleTimeout) && Enabled(j, Overflow) && forall code, signal :: Enabled(j, Close(code, signal))
    ensures (j.phase == Marking || j.phase == Live) && j.kind.hasPid && j.intake.listed ==> Enabled(j, DeadPid)
    ensures j.phase == Live && !j.kind.hasPid ==> Enabled(j, ErrorNoPid)
    ensures Enabled(j, Cancel) <==> j.intake.listed
    ensures Enabled(j, DisposeBegin) <==> !j.intake.disposed
    ensures Enabled(j, DisposeKill) <==> j.intake.disposed && j.intake.listed
    ensures j.stdin.delivery == Pending ==> Enabled(j, StdinAccepted) && forall c :: Enabled(j, StdinError(c))
  {
  }

  // ------------------------------------------------------------------ the close of a process

  /** The exit code of a close that nobody asked for: 1 for a signal, 127 for a program not found. */
  function RawExit(code: Exit, signal: bool): int {
    if signal then 1 else if code == NoExit then 0 else if code == Exit(-4058) then 127 else code.code
  }

  /** A job nobody asked to stop ends as its child did; an incomplete stdin turns success into failure with
      exit code 126. */
  lemma UnaskedClose(j: Job, code: Exit, signal: bool)
    requires Ok(j) && j.phase == Live && j.status == Running && Unstopped(j)
    ensures var k := Step(j, Close(code, signal)); var raw := RawExit(code, signal);
            && AllGone(k) && k.slot == j.slot
            && (if raw != 0 then EndsNow(j, k, Failed) && k.stop.exitCode == Exit(raw)
                else if j.stdin.delivery == Pending || j.stdin.delivery == Broken then
                  EndsNow(j, k, Failed) && k.stop.exitCode == Exit(126)
                else EndsNow(j, k, Completed) && k.stop.exitCode == Exit(0))
  {
  }

  lemma IncompleteClose(j: Job)
    requires Ok(j) && j.phase == Live && j.status == Running && Unstopped(j.(stdin := j.stdin.(incomplete := false)))
    requires j.stdin.incomplete
    ensures var k := Step(j, Close(Exit(0), false)); EndsNow(j, k, Failed) && k.stop.exitCode == Exit(126)
  {
  }

  /** A job that was asked to stop fails with the recorded code, whatever its child says; only a job whose
      stdin failed takes the child's own failure. */
  lemma AskedClose(j: Job, code: Exit, signal: bool)
    requires Ok(j) && j.phase == Live && j.status == Running
    requires j.stop.terminationRequested && !j.stop.canceled && j.stop.exitCode.Exit?
    ensures var k := Step(j, Close(code, signal));
            && EndsNow(j, k, Failed) && AllGone(k)
            && k.stop.exitCode == (if !j.stdin.failed then j.stop.exitCode
                                   else if code.Exit? && code.code != 0 then code else Exit(1))
  {
  }

  /** A cancelled Kit child is canceled at its close, with a code asked for earlier or its own. */
  lemma CanceledClose(j: Job, code: Exit, signal: bool)
    requires Ok(j) && j.phase == Live && j.status == Running && j.stop.canceled
    ensures var k := Step(j, Close(code, signal));
            && EndsNow(j, k, Canceled) && AllGone(k)
            && (j.stop.exitCode.Exit? ==> k.stop.exitCode == j.stop.exitCode)
            && (j.stop.exitCode == NoExit && !(signal && code.Exit?) ==> k.stop.exitCode == Exit(RawExit(code, signal)))
  {
  }

  /** A close after the end only adds what was not known: the exit code, and that the child is gone. */
  lemma CloseAfterEnd(j: Job, code: Exit, signal: bool)
    requires j.phase == Live && Terminal(j.status)
    ensures var k := Step(j, Close(code, signal));
            && k.status == j.status && AllGone(k) && k.end.tails == j.end.tails + 1
            && k.stop == j.stop.(exitCode := if j.stop.exitCode == NoExit then code else j.stop.exitCode)
  {
  }

  // ------------------------------------------------------------------ other ends

  /** A process found dead fails with its recorded code or 1, before its close is seen; one that could not
      be spawned ends by its error event. */
  lemma DeadProcess(j: Job)
    requires j.status == Running
    ensures Enabled(j, DeadPid) ==>
              var k := Step(j, DeadPid);
              EndsNow(j, k, Failed) && k.stop.exitCode == KnownOr(j.stop.exitCode, 1) && k.end.exited
              && k.end.closed == j.end.closed
    ensures Enabled(j, ErrorNoPid) ==>
              var k := Step(j, ErrorNoPid);
              EndsNow(j, k, if j.stop.canceled then Canceled else Failed) && AllGone(k)
              && k.stop.exitCode == if j.stop.terminationRequested then KnownOr(j.stop.exitCode, 1) else Exit(126)
  {
  }

  /** A request settles as it came out; one that was asked to stop fails with the recorded code or 1; one
      that was cancelled stays so, and is gone. */
  lemma HttpSettles(j: Job, ok: bool)
    requires Ok(j) && j.phase == Fired
    ensures var k := Step(j, HttpSettle(ok));
            && k.phase == Over && k.slot == j.slot
            && (j.status == Running && !j.stop.terminationRequested ==>
                  EndsNow(j, k, if ok then Completed else Failed)
                  && k.stop.exitCode == Exit(if ok then 0 else 1) && AllGone(k))
            && (j.status == Running && j.stop.terminationRequested ==>
                  EndsNow(j, k, Failed) && k.stop.exitCode == KnownOr(j.stop.exitCode, 1) && AllGone(k))
            && (j.status == Canceled ==>
                  k.status == Canceled && AllGone(k) && k.end.tails == j.end.tails && k.stop == j.stop)
  {
  }

  /** When an ending has been persisted the slot goes back; a Kit job keeps it until its child has closed,
      and until the store has acknowledged the row. */
  lemma PersistedDoes(j: Job, ack: bool)
    requires j.end.tails > 0
    ensures var k := Step(j, Persisted(ack));
            && k.status == j.status && (k.end.acknowledged <==> j.end.acknowledged || ack)
            && (if j.kind.kit && !j.kind.http && (j.phase == Marking || j.phase == Live) && !j.end.closed then
                  k.slot == j.slot && k.end.tails == j.end.tails - 1
                else if j.kind.kit && !j.end.acknowledged && !ack then k.slot == j.slot && k.end.tails == j.end.tails
                else k.end.tails == j.end.tails - 1
                     && k.slot == if j.slot.permit == Attached then
                                    j.slot.(permit := Returned, releases := j.slot.releases + 1)
                                  else j.slot)
  {
  }

  /** A job whose queue time is over fails with exit code 75 and leaves the queue. */
  lemma QueueTimeoutDoes(j: Job)
    requires Ok(j) && j.slot.permit == Waiting && j.status == Queued
    ensures var k := Step(j, QueueTimeout);
            EndsNow(j, k, Failed) && k.stop.exitCode == Exit(75) && AllGone(k) && k.slot.permit == Dropped
  {
  }

  // ------------------------------------------------------------------ whole lives

  /** A process that started, is given its input and exits cleanly completes, and its slot goes back once. */
  lemma CleanLife(j: Job)
    requires Ok(j) && Starts(j, true) && !j.kind.http && !j.intake.disposed
    ensures var live := Step(Step(j, Progressed(true)), Marked(true, true));
            var done := Step(Step(live, StdinAccepted), Close(Exit(0), false));
            var k := Step(done, Persisted(true));
            && k.status == Completed && k.stop.exitCode == Exit(0) && AllGone(k)
            && k.slot.permit == Returned && k.slot.releases == 1 && k.end.tails == 0
  {
    var a := Step(j, Progressed(true));
    StepKeeps(j, Progressed(true));
    LaunchGoesOn(j);
    var b := Step(a, Marked(true, true));
    StepKeeps(a, Marked(true, true));
    MarkedAsLive(a, true, true);
    LiveToEnd(b);
  }

  lemma LiveToEnd(j: Job)
    requires Ok(j) && j.phase == Live && j.status == Running && Unstopped(j) && j.stdin.delivery == Pending
    requires !j.kind.http && j.slot.permit == Attached && j.slot.releases == 0 && j.end.tails == 0 && !j.stdin.reported
    ensures var done := Step(Step(j, StdinAccepted), Close(Exit(0), false)); var k := Step(done, Persisted(true));
            && k.status == Completed && k.stop.exitCode == Exit(0) && AllGone(k)
            && k.slot.permit == Returned && k.slot.releases == 1 && k.end.tails == 0
  {
    StdinOutcome(j, true);
    StepKeeps(j, StdinAccepted);
    var a := Step(j, StdinAccepted);
    UnaskedClose(a, Exit(0), false);
    var done := Step(a, Close(Exit(0), false));
    PersistedDoes(done, true);
  }
}
