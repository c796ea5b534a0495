/** One job record in the memory of the gateway that runs it, from admission to its last callback.

    Code between two awaits runs without interruption, so one event is one such stretch; whatever
    follows an await is a later event, and events come in any order that the guards allow. */
module JobLifecycle {

  datatype Status = Queued | Running | Completed | Failed | Canceled

  predicate Terminal(s: Status) { s == Completed || s == Failed || s == Canceled }

  datatype Exit = NoExit | Exit(code: int)

  function OrElse(e: Exit, code: int): Exit { if e.NoExit? then Exit(code) else e }

  /** How far `launch` has come.  Starting: before the child or the request exists.  Marking: the
      child runs, its row is being marked.  Live: the child's handlers are attached.  Fired: an HTTP
      request is out. */
  datatype Phase = NotLaunched | Starting | Marking | Live | Fired | Over

  /** Where the job's running slot is.  Loose: granted inline, known to startJob only.  Attached:
      in the record's `limiterPermit`. */
  datatype Permit = Waiting | Loose | Attached | Returned | Dropped

  datatype Delivery = NotSupplied | NotStarted | Pending | Succeeded | Broken

  datatype Kind = Kind(http: bool, kit: bool, deferred: bool, hasPid: bool)

  datatype Intake = Intake(
    listed: bool,             // in the manager's table of jobs
    recording: bool,          // recordStart has not settled
    launchReleased: bool,     // a deferred launch was released or cancelled
    disposed: bool)           // the manager is shutting down

  datatype Slot = Slot(
    permit: Permit,
    releases: nat,
    stranded: bool)           // history: attached after the terminal lifecycle had run

  datatype Stop = Stop(canceled: bool, terminationRequested: bool, exitCode: Exit)

  datatype Stdin = Stdin(delivery: Delivery, reported: bool, incomplete: bool, failed: bool)

  datatype End = End(
    exited: bool,
    closed: bool,
    acknowledged: bool,       // the terminal row is known to be settled
    tails: nat)               // terminal transitions whose persistComplete has not returned yet

  datatype Job = Job(
    kind: Kind, status: Status, phase: Phase, intake: Intake, slot: Slot, stop: Stop, stdin: Stdin, end: End)

  datatype Event =
    | Recorded(ok: bool)
    | QueueGrant
    | QueueTimeout
    | DeferredRelease
    | DeferredCancel
    | Progressed(spawned: bool)
    | Marked(ok: bool, pipe: bool)   // pipe: the child has a stdin stream
    | StdinAccepted
    | StdinError(closure: bool)
    | Cancel
    | DisposeBegin
    | DisposeKill
    | IdleTimeout
    | Overflow
    | DeadPid
    | ErrorNoPid
    | Close(code: Exit, signal: bool)
    | HttpSettle(ok: bool)
    | Persisted(ack: bool)    // persistComplete of one terminal transition returned

  /** A record as startJob inserts it: in the limiter's queue or with a permit in hand. */
  function NewJob(kind: Kind, permit: Permit, disposed: bool, payload: bool): Job {
    Job(kind, Queued, NotLaunched, Intake(true, true, false, disposed), Slot(permit, 0, false),
        Stop(false, false, NoExit), Stdin(if payload then NotStarted else NotSupplied, false, false, false),
        End(false, false, false, 0))
  }

  ghost predicate IsNew(j: Job) {
    exists kind, permit, disposed, payload ::
      j == NewJob(kind, permit, disposed, payload) && (permit == Waiting || permit == Loose) && (kind.http ==> !payload)
  }

  // ------------------------------------------------------------------ shared stretches of code

  function Settle(j: Job, s: Status): Job { j.(status := s, end := j.end.(tails := j.end.tails + 1)) }

  /** No process or request is left. */
  function Gone(j: Job): Job { j.(end := j.end.(exited := true, closed := true)) }

  function WithExit(j: Job, e: Exit): Job { j.(stop := j.stop.(exitCode := e)) }

  function Terminate(j: Job, code: int): Job {
    j.(stop := j.stop.(terminationRequested := true, exitCode := Exit(code)))
  }

  function SetPermit(j: Job, p: Permit): Job { j.(slot := j.slot.(permit := p)) }

  /** releaseJobPermit */
  function ReleasePermit(j: Job): Job {
    if j.slot.permit == Attached then j.(slot := j.slot.(permit := Returned, releases := j.slot.releases + 1)) else j
  }

  /** `queueCancel?.()`, which is set once recordStart has settled. */
  function LeaveQueue(j: Job): Job {
    if j.slot.permit == Waiting && !j.intake.recording then SetPermit(j, Dropped) else j
  }

  function FailQueued(j: Job, code: int): Job {
    if j.status != Queued then j else Gone(WithExit(Settle(j, Failed), Exit(code)))
  }

  /** The part of `launch` before its first await. */
  function Launch(j: Job): Job {
    var a := SetPermit(j, Attached);
    if a.intake.disposed && a.status == Queued then FailQueued(a, 1)
    else if a.status != Queued then ReleasePermit(a)
    else a.(status := Running, phase := Starting)
  }

  /** A deferred job holds on to its permit. */
  function Hold(j: Job): Job {
    j.(slot := j.slot.(permit := Attached, stranded := Terminal(j.status) && j.end.tails == 0))
  }

  function CancelJob(j: Job): Job {
    if j.status == Queued then
      var k := Gone(Settle(ReleasePermit(LeaveQueue(j)), Canceled));
      k.(stop := k.stop.(canceled := true))
    else if j.status != Running then j
    else if j.kind.http then Settle(j.(stop := j.stop.(canceled := true)), Canceled)
    else if j.phase == Starting then j
    else
      var k := j.(stop := j.stop.(canceled := true, terminationRequested := j.kind.kit));
      if j.kind.kit then k else Settle(k, Canceled)
  }

  function LaunchExit(j: Job): Exit {
    if j.stop.terminationRequested then OrElse(j.stop.exitCode, 1) else Exit(126)
  }

  /** failStdinWrite */
  function FailStdin(j: Job, closure: bool): Job {
    if j.end.exited || j.stop.canceled || j.stop.terminationRequested then j
    else if closure then j.(stdin := j.stdin.(incomplete := true))
    else Terminate(j.(stdin := j.stdin.(failed := true)), 1)
  }

  /** isChildStdinDeliveryIncomplete, on the delivery of this job if one was started. */
  predicate Undelivered(j: Job) {
    j.stdin.delivery == Pending || j.stdin.delivery == Broken
  }

  /** The stop facts once the close handler has noted the signal and the exit code. */
  function NoteExit(s: Stop, code: Exit, signal: bool): Stop {
    var raw := if code.Exit? then code.code else if signal then 1 else 0;
    var s1 := if signal && !s.canceled && !s.terminationRequested
              then s.(terminationRequested := true, exitCode := Exit(1)) else s;
    if !s1.terminationRequested || s1.exitCode == NoExit
    then s1.(exitCode := Exit(if raw == -4058 then 127 else raw)) else s1
  }

  /** What a close event makes of a running job. */
  function Outcome(s: Stop, code: Exit, stdin: Stdin, undelivered: bool): (Status, Exit) {
    if s.canceled then (Canceled, s.exitCode)
    else if stdin.failed && code.Exit? && code.code != 0 then (Failed, code)
    else if s.terminationRequested then (Failed, if stdin.failed then Exit(1) else s.exitCode)
    else if s.exitCode != Exit(0) then (Failed, s.exitCode)
    else if stdin.incomplete || undelivered then (Failed, Exit(126))
    else (Completed, s.exitCode)
  }

  function CloseRunning(j: Job, code: Exit, signal: bool): Job {
    var s := NoteExit(j.stop, code, signal);
    var (status, exit) := Outcome(s, code, j.stdin, Undelivered(j));
    Settle(j.(stop := s.(exitCode := exit)), status)
  }

  /** A spawned child that has not been seen to close. */
  predicate ChildOpen(j: Job) { !j.kind.http && (j.phase == Marking || j.phase == Live) && !j.end.closed }

  /** fireOnComplete, as far as the permit goes. */
  function FireOnComplete(j: Job): Job
    requires j.end.tails > 0
  {
    var k := j.(end := j.end.(tails := j.end.tails - 1));
    if j.kind.kit && ChildOpen(j) then k
    else if j.kind.kit && !j.end.acknowledged then j  // a retry of persistComplete is scheduled
    else ReleasePermit(k)
  }

  // ------------------------------------------------------------------ events

  predicate Enabled(j: Job, e: Event) {
    match e
    case Recorded(_) => j.intake.recording
    case QueueGrant => j.slot.permit == Waiting
    case QueueTimeout => j.slot.permit == Waiting
    case DeferredRelease => j.intake.listed && j.kind.deferred && !j.intake.recording && !j.intake.launchReleased
    case DeferredCancel => j.intake.listed && j.kind.deferred && !j.intake.recording && !j.intake.launchReleased
    case Progressed(_) => j.phase == Starting
    case Marked(_, _) => j.phase == Marking
    case StdinAccepted => Undelivered(j)
    case StdinError(_) => Undelivered(j) || j.stdin.delivery == Succeeded
    case Cancel => j.intake.listed
    case DisposeBegin => !j.intake.disposed
    case DisposeKill => j.intake.disposed && j.intake.listed
    case IdleTimeout => j.phase == Live
    case Overflow => j.phase == Live
    case DeadPid => j.intake.listed && (j.phase == Marking || j.phase == Live) && j.kind.hasPid
    case ErrorNoPid => j.phase == Live && !j.kind.hasPid
    case Close(_, _) => j.phase == Live
    case HttpSettle(_) => j.phase == Fired
    case Persisted(_) => j.end.tails > 0
  }

  function OnRecorded(j: Job, ok: bool): Job {
    var k := j.(intake := j.intake.(recording := false, listed := ok));
    if !ok then
      if j.slot.permit == Loose then
        k.(slot := k.slot.(permit := Returned, releases := k.slot.releases + 1), phase := Over)
      else if j.slot.permit == Waiting then SetPermit(k, Dropped).(phase := Over)
      else k
    else if j.slot.permit != Loose then k
    else if j.kind.deferred then Hold(k) else Launch(k)
  }

  function OnProgressed(j: Job, spawned: bool): Job {
    if j.kind.http then j.(phase := Fired)
    else if j.intake.disposed || j.stop.terminationRequested || j.status != Running || !spawned then
      Gone(WithExit(Settle(j.(phase := Over), Failed), LaunchExit(j)))
    else j.(phase := Marking)
  }

  function OnMarked(j: Job, ok: bool, pipe: bool): Job {
    var k := j.(phase := Live);
    if !ok then Terminate(k, 1)
    else if j.stdin.delivery != NotStarted then k
    else if pipe then k.(stdin := j.stdin.(delivery := Pending))
    else FailStdin(k, false)
  }

  function OnHttpSettle(j: Job, ok: bool): Job {
    var k := j.(phase := Over);
    if j.status == Canceled then Gone(k)
    else if j.status != Running then k
    else if j.stop.terminationRequested then Gone(WithExit(Settle(k, Failed), OrElse(j.stop.exitCode, 1)))
    else Gone(WithExit(Settle(k, if ok then Completed else Failed), Exit(if ok then 0 else 1)))
  }

  function Step(j: Job, e: Event): Job
    requires Enabled(j, e)
  {
    match e
    case Recorded(ok) => OnRecorded(j, ok)
    case QueueGrant => if j.kind.deferred && !j.intake.launchReleased then Hold(j) else Launch(j)
    case QueueTimeout => FailQueued(SetPermit(j, Dropped), 75)
    case DeferredRelease =>
      var k := j.(intake := j.intake.(launchReleased := true));
      if j.status == Queued && j.slot.permit == Attached then Launch(k) else k
    case DeferredCancel => CancelJob(j.(intake := j.intake.(launchReleased := true)))
    case Progressed(spawned) => OnProgressed(j, spawned)
    case Marked(ok, pipe) => OnMarked(j, ok, pipe)
    case StdinAccepted => if j.stdin.delivery == Pending then j.(stdin := j.stdin.(delivery := Succeeded)) else j
    case StdinError(closure) =>
      var k := j.(stdin := j.stdin.(delivery := Broken, reported := true));
      if j.stdin.reported then k else FailStdin(k, closure)
    case Cancel => CancelJob(j)
    case DisposeBegin =>
      var k := j.(intake := j.intake.(disposed := true));
      if j.intake.listed && j.status == Queued then FailQueued(LeaveQueue(k), 1) else k
    case DisposeKill => if j.status == Running then Terminate(j, 1) else j
    case IdleTimeout =>
      if j.status != Running || j.stop.terminationRequested then j
      else if j.kind.kit then Terminate(j, 125) else Settle(Terminate(j, 125), Failed)
    case Overflow =>
      if j.status != Running then j
      else if j.kind.kit then Terminate(j, 126) else Settle(Terminate(j, 126), Failed)
    case DeadPid =>
      if j.status != Running then j
      else
        var k := Settle(WithExit(j, OrElse(j.stop.exitCode, 1)), Failed);
        k.(end := k.end.(exited := true))
    case ErrorNoPid =>
      if j.status != Running then Gone(j)
      else Gone(WithExit(Settle(j, if j.stop.canceled then Canceled else Failed), LaunchExit(j)))
    case Close(code, signal) =>
      if j.status != Running then
        Settle(Gone(WithExit(j, if j.stop.exitCode == NoExit then code else j.stop.exitCode)), j.status)
      else CloseRunning(Gone(j), code, signal)
    case HttpSettle(ok) => OnHttpSettle(j, ok)
    case Persisted(ack) => FireOnComplete(j.(end := j.end.(acknowledged := j.end.acknowledged || ack)))
  }

  function Run(j: Job, events: seq<Event>): Job
    decreases |events|
  {
    if events == [] then j
    else Run(if Enabled(j, events[0]) then Step(j, events[0]) else j, events[1..])
  }

  // ------------------------------------------------------------------ what every event keeps

  predicate PermitOk(j: Job) {
    && j.slot.releases == (if j.slot.permit == Returned then 1 else 0)
    && (j.slot.permit == Loose ==> j.intake.recording && j.phase == NotLaunched)
    && (j.slot.permit == Waiting ==> j.phase == NotLaunched)
    && (j.status == Running ==> j.slot.permit == Attached)
    && (j.intake.recording ==> j.intake.listed)
    && (j.slot.stranded ==> j.kind.deferred)
  }

  predicate PhaseOk(j: Job) {
    && (j.status == Queued ==>
          j.phase == NotLaunched || (j.phase == Over && !j.intake.listed && j.slot.permit != Attached))
    && (j.status == Running ==> j.phase != NotLaunched && j.phase != Over)
    && (j.phase == Starting && !j.kind.http ==> j.status == Running)
    && (if j.kind.http then j.phase != Marking && j.phase != Live else j.phase != Fired)
    && (j.end.tails > 0 ==> Terminal(j.status))
    && (j.status == Completed ==> j.phase == Live || j.phase == Over)
    && (j.kind.kit && Terminal(j.status) && ChildOpen(j) ==> j.kind.hasPid)
    && (j.status == Queued || j.phase == NotLaunched || j.phase == Starting || j.phase == Marking ==>
          (j.stdin.delivery == NotSupplied || j.stdin.delivery == NotStarted) && !j.stdin.failed)
    && (j.status == Queued ==> !j.stop.canceled)
  }

  /** An attached permit of a terminal job has a terminal transition still to return, waits for the
      close of a Kit child, or was stranded. */
  predicate ReturnOk(j: Job) {
    Terminal(j.status) && j.slot.permit == Attached ==>
      j.end.tails > 0 || j.slot.stranded || (j.kind.kit && ChildOpen(j) && j.kind.hasPid)
  }

  predicate OutcomeOk(j: Job) {
    && (j.status == Completed ==>
          j.stop.exitCode == Exit(0) && !j.stop.canceled && !j.stop.terminationRequested && j.end.exited)
    && (j.status == Running && j.stop.canceled ==> j.stop.terminationRequested && !j.kind.http)
    && (j.status == Running && j.stdin.failed ==> j.stop.terminationRequested)
    && (j.status == Running && j.phase == Live && j.stdin.delivery == NotStarted ==> j.stop.terminationRequested)
    && (j.end.exited ==> Terminal(j.status))
  }

  predicate Ok(j: Job) { PermitOk(j) && PhaseOk(j) && ReturnOk(j) && OutcomeOk(j) }

  /** The event keeps the invariant, leaves a terminal status alone and a returned permit returned. */
  predicate Kept(j: Job, k: Job) {
    && Ok(k)
    && (Terminal(j.status) ==> k.status == j.status)
    && (j.slot.permit == Returned ==> k.slot.permit == Returned)
  }

  lemma RecordedKeeps(j: Job, ok: bool)
    requires Ok(j) && Enabled(j, Recorded(ok))
    ensures Kept(j, Step(j, Recorded(ok)))
  {
  }

  lemma QueueGrantKeeps(j: Job)
    requires Ok(j) && Enabled(j, QueueGrant)
    ensures Kept(j, Step(j, QueueGrant))
  {
  }

  lemma QueueTimeoutKeeps(j: Job)
    requires Ok(j) && Enabled(j, QueueTimeout)
    ensures Kept(j, Step(j, QueueTimeout))
  {
  }

  lemma DeferredReleaseKeeps(j: Job)
    requires Ok(j) && Enabled(j, DeferredRelease)
    ensures Kept(j, Step(j, DeferredRelease))
  {
  }

  lemma ProgressedKeeps(j: Job, spawned: bool)
    requires Ok(j) && Enabled(j, Progressed(spawned))
    ensures Kept(j, Step(j, Progressed(spawned)))
  {
  }

  lemma MarkedKeeps(j: Job, ok: bool, pipe: bool)
    requires Ok(j) && Enabled(j, Marked(ok, pipe))
    ensures Kept(j, Step(j, Marked(ok, pipe)))
  {
  }

  lemma StdinAcceptedKeeps(j: Job)
    requires Ok(j) && Enabled(j, StdinAccepted)
    ensures Kept(j, Step(j, StdinAccepted))
  {
  }

  lemma StdinErrorKeeps(j: Job, closure: bool)
    requires Ok(j) && Enabled(j, StdinError(closure))
    ensures Kept(j, Step(j, StdinError(closure)))
  {
  }

  lemma CancelKeeps(j: Job)
    requires Ok(j) && Enabled(j, Cancel)
    ensures Kept(j, Step(j, Cancel))
  {
  }

  lemma DeferredCancelKeeps(j: Job)
    requires Ok(j) && Enabled(j, DeferredCancel)
    ensures Kept(j, Step(j, DeferredCancel))
  {
  }

  lemma DisposeBeginKeeps(j: Job)
    requires Ok(j) && Enabled(j, DisposeBegin)
    ensures Kept(j, Step(j, DisposeBegin))
  {
  }

  lemma DisposeKillKeeps(j: Job)
    requires Ok(j) && Enabled(j, DisposeKill)
    ensures Kept(j, Step(j, DisposeKill))
  {
  }

  lemma IdleTimeoutKeeps(j: Job)
    requires Ok(j) && Enabled(j, IdleTimeout)
    ensures Kept(j, Step(j, IdleTimeout))
  {
  }

  lemma OverflowKeeps(j: Job)
    requires Ok(j) && Enabled(j, Overflow)
    ensures Kept(j, Step(j, Overflow))
  {
  }

  lemma DeadPidKeeps(j: Job)
    requires Ok(j) && Enabled(j, DeadPid)
    ensures Kept(j, Step(j, DeadPid))
  {
  }

  lemma ErrorNoPidKeeps(j: Job)
    requires Ok(j) && Enabled(j, ErrorNoPid)
    ensures Kept(j, Step(j, ErrorNoPid))
  {
  }

  lemma CloseKeeps(j: Job, code: Exit, signal: bool)
    requires Ok(j) && Enabled(j, Close(code, signal))
    ensures Kept(j, Step(j, Close(code, signal)))
  {
  }

  lemma HttpSettleKeeps(j: Job, ok: bool)
    requires Ok(j) && Enabled(j, HttpSettle(ok))
    ensures Kept(j, Step(j, HttpSettle(ok)))
  {
  }

  lemma PersistedKeeps(j: Job, ack: bool)
    requires Ok(j) && Enabled(j, Persisted(ack))
    ensures Kept(j, Step(j, Persisted(ack)))
  {
  }

  lemma StepKeeps(j: Job, e: Event)
    requires Ok(j) && Enabled(j, e)
    ensures Kept(j, Step(j, e))
  {
    match e
    case Recorded(ok) => RecordedKeeps(j, ok);
    case QueueGrant => QueueGrantKeeps(j);
    case QueueTimeout => QueueTimeoutKeeps(j);
    case DeferredRelease => DeferredReleaseKeeps(j);
    case Progressed(spawned) => ProgressedKeeps(j, spawned);
    case Marked(ok, pipe) => MarkedKeeps(j, ok, pipe);
    case StdinAccepted => StdinAcceptedKeeps(j);
    case StdinError(closure) => StdinErrorKeeps(j, closure);
    case Cancel => CancelKeeps(j);
    case DeferredCancel => DeferredCancelKeeps(j);
    case DisposeBegin => DisposeBeginKeeps(j);
    case DisposeKill => DisposeKillKeeps(j);
    case IdleTimeout => IdleTimeoutKeeps(j);
    case Overflow => OverflowKeeps(j);
    case DeadPid => DeadPidKeeps(j);
    case ErrorNoPid => ErrorNoPidKeeps(j);
    case Close(code, signal) => CloseKeeps(j, code, signal);
    case HttpSettle(ok) => HttpSettleKeeps(j, ok);
    case Persisted(ack) => PersistedKeeps(j, ack);
  }

  // ------------------------------------------------------------------ main results

  lemma {:induction false} RunKeeps(j: Job, events: seq<Event>)
    requires Ok(j)
    ensures Kept(j, Run(j, events))
    decreases |events|
  {
    if events != [] {
      if Enabled(j, events[0]) {
        StepKeeps(j, events[0]);
        RunKeeps(Step(j, events[0]), events[1..]);
      } else {
        RunKeeps(j, events[1..]);
      }
    }
  }

  /** Over every order of events: a terminal status never changes, and the permit is released at most
      once. */
  lemma TerminalForever(j0: Job, first: seq<Event>, more: seq<Event>)
    requires IsNew(j0)
    ensures var j := Run(j0, first); var k := Run(j, more);
      && (Terminal(j.status) ==> k.status == j.status)
      && j.slot.releases <= k.slot.releases <= 1
  {
    RunKeeps(j0, first);
    RunKeeps(Run(j0, first), more);
  }

  /** The terminal lifecycle has run through: no transition is still being persisted, a Kit child has
      been seen to close, and the limiter is not about to grant or time out the job. */
  predicate RunThrough(j: Job) {
    && Terminal(j.status) && j.end.tails == 0 && (j.kind.kit ==> !ChildOpen(j))
    && j.slot.permit != Waiting && j.slot.permit != Loose
  }

  /** After the terminal lifecycle a permit that was given has been released exactly once, or belongs
      to a deferred job and is lost. */
  lemma ReleasedExactlyOnce(j0: Job, events: seq<Event>)
    requires IsNew(j0)
    ensures var j := Run(j0, events);
      RunThrough(j) ==>
        if j.slot.permit == Attached then j.kind.deferred && Lost(j) && j.slot.releases == 0
        else j.slot.releases == if j.slot.permit == Returned then 1 else 0
  {
    RunKeeps(j0, events);
    StrandedIsLost(j0, events);
  }

  /** What a completing step says of the record it starts from. */
  predicate Succeeds(j: Job, e: Event) {
    && e.Close? && (e.code == Exit(0) || e.code == NoExit) && !e.signal
    && !j.stop.canceled && !j.stop.terminationRequested && !j.stdin.failed && !j.stdin.incomplete
    && (j.stdin.delivery == Succeeded || j.stdin.delivery == NotSupplied)
  }

  lemma OnlyCloseCompletes(j: Job, e: Event)
    requires PhaseOk(j) && !j.kind.http && Enabled(j, e) && j.status != Completed && Step(j, e).status == Completed
    ensures e.Close? && j.status == Running && j.phase == Live
  {
  }

  lemma CloseCompletes(j: Job, code: Exit, signal: bool)
    requires OutcomeOk(j) && j.status == Running && j.phase == Live
    requires CloseRunning(Gone(j), code, signal).status == Completed
    ensures Succeeds(j, Close(code, signal))
  {
  }

  /** The step that completes a process job is a close with exit code 0 (or neither code nor signal),
      with no cancellation or termination requested and the stdin accepted when there was any. */
  lemma CompletedMeansSuccess(j0: Job, events: seq<Event>, e: Event)
    requires IsNew(j0) && !j0.kind.http
    requires var j := Run(j0, events); Enabled(j, e) && j.status != Completed && Step(j, e).status == Completed
    ensures Succeeds(Run(j0, events), e)
  {
    var j := Run(j0, events);
    RunKeeps(j0, events);
    KindForever(j0, events);
    OnlyCloseCompletes(j, e);
    CloseCompletes(j, e.code, e.signal);
  }

  /** When a step completes the job. */
  predicate CompletedBy(j: Job, e: Event) {
    && j.status == Running
    && if j.kind.http then e == HttpSettle(true) && !j.stop.terminationRequested else Succeeds(j, e)
  }

  lemma OnlySettleCompletes(j: Job, e: Event)
    requires PhaseOk(j) && j.kind.http && Enabled(j, e) && j.status != Completed
    ensures Step(j, e).status == Completed <==> CompletedBy(j, e)
  {
  }

  lemma CleanCloseCompletes(j: Job, code: Exit, signal: bool)
    requires PhaseOk(j) && OutcomeOk(j) && !j.kind.http && Enabled(j, Close(code, signal))
    requires j.status == Running && Succeeds(j, Close(code, signal))
    ensures Step(j, Close(code, signal)).status == Completed
  {
    assert !Undelivered(j);
    assert NoteExit(j.stop, code, signal).exitCode == Exit(0);
  }

  /** Over every run of every new job: the steps that complete it are exactly a clean close of a process,
      and a successful settlement of a request that nobody asked to stop. */
  lemma CompletedIff(j0: Job, events: seq<Event>, e: Event)
    requires IsNew(j0)
    requires var j := Run(j0, events); Enabled(j, e) && j.status != Completed
    ensures var j := Run(j0, events); j.kind == j0.kind && (Step(j, e).status == Completed <==> CompletedBy(j, e))
  {
    var j := Run(j0, events);
    RunKeeps(j0, events);
    KindForever(j0, events);
    if j.kind.http {
      OnlySettleCompletes(j, e);
    } else if Step(j, e).status == Completed {
      OnlyCloseCompletes(j, e);
      CloseCompletes(j, e.code, e.signal);
    } else if CompletedBy(j, e) {
      CleanCloseCompletes(j, e.code, e.signal);
    }
  }

  /** The step cancels: a cancellation, or the close of a Kit child that was cancelled while it ran. */
  predicate CanceledBy(j: Job, e: Event) {
    e == Cancel || e == DeferredCancel || ((e.Close? || e.ErrorNoPid?) && j.stop.canceled)
  }

  /** The exit code that an ending by the gateway itself records. */
  function OwnExit(e: Event): Exit {
    match e
    case QueueTimeout => Exit(75)
    case DisposeBegin => Exit(1)
    case IdleTimeout => Exit(125)
    case Overflow => Exit(126)
    case _ => NoExit
  }

  /** Over every run of every new job: the step that ends it leaves it completed, canceled or failed as
      the event says, and an ending by the gateway itself leaves its own exit code. */
  lemma EndedAs(j0: Job, events: seq<Event>, e: Event)
    requires IsNew(j0)
    requires var j := Run(j0, events); Enabled(j, e) && !Terminal(j.status) && Terminal(Step(j, e).status)
    ensures var j := Run(j0, events);
      Step(j, e).status == if CompletedBy(j, e) then Completed else if CanceledBy(j, e) then Canceled else Failed
    ensures OwnExit(e).Exit? ==> Step(Run(j0, events), e).stop.exitCode == OwnExit(e)
    ensures e.HttpSettle? && !Run(j0, events).stop.terminationRequested ==>
              Step(Run(j0, events), e).stop.exitCode == Exit(if e.ok then 0 else 1)
  {
    var j := Run(j0, events);
    RunKeeps(j0, events);
    CompletedIff(j0, events, e);
    if Step(j, e).status != Completed { EndedOtherwise(j, e); }
    EndingExit(j, e);
  }

  lemma EndedOtherwise(j: Job, e: Event)
    requires Ok(j) && Enabled(j, e) && !Terminal(j.status)
    requires Terminal(Step(j, e).status) && Step(j, e).status != Completed
    ensures Step(j, e).status == if CanceledBy(j, e) then Canceled else Failed
  {
  }

  lemma EndingExit(j: Job, e: Event)
    requires Ok(j) && Enabled(j, e) && !Terminal(j.status) && Terminal(Step(j, e).status)
    ensures OwnExit(e).Exit? ==> Step(j, e).stop.exitCode == OwnExit(e)
    ensures e.HttpSettle? && !j.stop.terminationRequested ==> Step(j, e).stop.exitCode == Exit(if e.ok then 0 else 1)
  {
  }

  lemma {:induction false} KindForever(j: Job, events: seq<Event>)
    ensures Run(j, events).kind == j.kind
    decreases |events|
  {
    if events != [] {
      KindForever(if Enabled(j, events[0]) then Step(j, events[0]) else j, events[1..]);
    }
  }

  /** A completed process job keeps exit code 0 and no stop request, whatever comes later. */
  lemma CompletedStaysClean(j0: Job, events: seq<Event>)
    requires IsNew(j0)
    ensures var j := Run(j0, events);
      j.status == Completed ==> j.stop.exitCode == Exit(0) && !j.stop.canceled && !j.stop.terminationRequested
  {
    RunKeeps(j0, events);
  }

  // ------------------------------------------------------------------ when a permit is lost

  /** The permit is attached to a job that never launched and whose terminal lifecycle is over, or
      that is no longer in the manager's table. */
  predicate Lost(j: Job) {
    && j.slot.permit == Attached && j.phase == NotLaunched && j.end.tails == 0
    && (Terminal(j.status) || !j.intake.listed)
  }

  lemma LostStep(j: Job, e: Event)
    requires Ok(j) && Lost(j) && Enabled(j, e)
    ensures Lost(Step(j, e))
  {
  }

  lemma {:induction false} LostForever(j: Job, events: seq<Event>)
    requires Ok(j) && Lost(j)
    ensures Lost(Run(j, events))
    decreases |events|
  {
    if events != [] {
      if Enabled(j, events[0]) {
        LostStep(j, events[0]);
        StepKeeps(j, events[0]);
        LostForever(Step(j, events[0]), events[1..]);
      } else {
        LostForever(j, events[1..]);
      }
    }
  }

  /** A permit flagged as stranded is lost. */
  predicate StrandedOk(j: Job) { j.slot.stranded ==> Lost(j) }

  lemma StrandedStep(j: Job, e: Event)
    requires Ok(j) && StrandedOk(j) && Enabled(j, e)
    ensures StrandedOk(Step(j, e))
  {
    if Lost(j) { LostStep(j, e); }
  }

  lemma {:induction false} StrandedIsLost(j: Job, events: seq<Event>)
    requires Ok(j) && StrandedOk(j)
    ensures StrandedOk(Run(j, events))
    decreases |events|
  {
    if events != [] {
      if Enabled(j, events[0]) {
        StrandedStep(j, events[0]);
        StepKeeps(j, events[0]);
        StrandedIsLost(Step(j, events[0]), events[1..]);
      } else {
        StrandedIsLost(j, events[1..]);
      }
    }
  }

  function Try(j: Job, e: Event): Job { if Enabled(j, e) then Step(j, e) else j }

  /** What ends any launched job: the launch stops or the child closes or the request settles, and the
      terminal transition is persisted. */
  function Ended(j: Job): Job {
    var closed := Try(Try(Try(j, Progressed(false)), Marked(true, true)), Close(Exit(0), false));
    Try(Try(closed, HttpSettle(true)), Persisted(true))
  }

  const ENDING: seq<Event> :=
    [Progressed(false), Marked(true, true), Close(Exit(0), false), HttpSettle(true), Persisted(true)]

  lemma RunEnding(j: Job)
    ensures Run(j, ENDING) == Ended(j)
  {
    assert ENDING[1..] == [Marked(true, true), Close(Exit(0), false), HttpSettle(true), Persisted(true)];
    assert ENDING[1..][1..] == [Close(Exit(0), false), HttpSettle(true), Persisted(true)];
    assert ENDING[1..][1..][1..] == [HttpSettle(true), Persisted(true)];
    assert ENDING[1..][1..][1..][1..] == [Persisted(true)];
    assert ENDING[1..][1..][1..][1..][1..] == [];
    var a := Try(j, Progressed(false));
    var b := Try(a, Marked(true, true));
    var c := Try(b, Close(Exit(0), false));
    var d := Try(c, HttpSettle(true));
    assert Run(d, [Persisted(true)]) == Run(Try(d, Persisted(true)), []);
    assert Run(c, ENDING[1..][1..][1..]) == Run(d, [Persisted(true)]);
    assert Run(b, ENDING[1..][1..]) == Run(c, ENDING[1..][1..][1..]);
    assert Run(a, ENDING[1..]) == Run(b, ENDING[1..][1..]);
  }

  lemma EndedReturns(j: Job)
    requires Ok(j) && StrandedOk(j) && j.slot.permit == Attached && !Lost(j)
    requires j.phase != NotLaunched || j.end.tails > 0
    ensures Ended(j).slot.permit == Returned
  {
    if j.phase == Starting {
      StartingEnds(j);
    } else if j.phase == Marking || j.phase == Live {
      ChildEnds(j);
    } else {
      OthersEnd(j);
    }
  }

  lemma PersistReturns(j: Job)
    requires j.slot.permit == Attached && j.end.tails > 0 && !ChildOpen(j)
    ensures Try(j, Persisted(true)).slot.permit == Returned
  {
  }

  lemma StartingEnds(j: Job)
    requires Ok(j) && j.slot.permit == Attached && j.phase == Starting && !j.slot.stranded
    ensures Ended(j).slot.permit == Returned
  {
    if j.kind.http { StartingHttpEnds(j); } else { StartingProcessEnds(j); }
  }

  lemma StartingHttpEnds(j: Job)
    requires Ok(j) && j.slot.permit == Attached && j.phase == Starting && !j.slot.stranded && j.kind.http
    ensures Ended(j).slot.permit == Returned
  {
    var a := Try(j, Progressed(false));
    assert a == j.(phase := Fired);
    assert Try(a, Marked(true, true)) == a && Try(a, Close(Exit(0), false)) == a;
    var d := Try(a, HttpSettle(true));
    assert d.slot == j.slot && d.end.tails > 0 && d.kind == j.kind;
    PersistReturns(d);
  }

  lemma StartingProcessEnds(j: Job)
    requires Ok(j) && j.slot.permit == Attached && j.phase == Starting && !j.kind.http
    ensures Ended(j).slot.permit == Returned
  {
    var a := Try(j, Progressed(false));
    assert a.phase == Over && a.slot == j.slot && a.end.tails > 0;
    assert Try(a, Marked(true, true)) == a && Try(a, Close(Exit(0), false)) == a && Try(a, HttpSettle(true)) == a;
    PersistReturns(a);
  }

  lemma ChildEnds(j: Job)
    requires Ok(j) && j.slot.permit == Attached && (j.phase == Marking || j.phase == Live)
    ensures Ended(j).slot.permit == Returned
  {
    assert Try(j, Progressed(false)) == j;
    if j.phase == Marking {
      var b := Try(j, Marked(true, true));
      MarkedGoesLive(j);
      LiveEnds(b);
    } else {
      assert Try(j, Marked(true, true)) == j;
      LiveEnds(j);
    }
  }

  lemma MarkedGoesLive(j: Job)
    requires j.phase == Marking
    ensures var b := Try(j, Marked(true, true)); b.phase == Live && b.slot == j.slot
  {
  }

  lemma LiveEnds(j: Job)
    requires j.slot.permit == Attached && j.phase == Live
    ensures Try(Try(Try(j, Close(Exit(0), false)), HttpSettle(true)), Persisted(true)).slot.permit == Returned
  {
    var c := Try(j, Close(Exit(0), false));
    assert c.phase == Live && c.slot == j.slot && c.end.closed && c.end.tails > 0;
    assert Try(c, HttpSettle(true)) == c;
    PersistReturns(c);
  }

  lemma OthersEnd(j: Job)
    requires Ok(j) && !j.slot.stranded && j.slot.permit == Attached
    requires j.phase != Starting && j.phase != Marking && j.phase != Live
    requires j.phase != NotLaunched || j.end.tails > 0
    ensures Ended(j).slot.permit == Returned
  {
    var c := Try(Try(Try(j, Progressed(false)), Marked(true, true)), Close(Exit(0), false));
    assert c == j;
  }

  /** Every permit that is not lost can still be returned. */
  lemma CanReturn(j: Job) returns (more: seq<Event>)
    requires Ok(j) && StrandedOk(j) && j.slot.permit == Attached && !Lost(j)
    ensures Run(j, more).slot.permit != Attached
  {
    if j.phase == NotLaunched && j.end.tails == 0 {
      more := [Cancel];
      assert more[1..] == [];
      assert Run(j, more) == Run(Step(j, Cancel), []);
    } else {
      more := ENDING;
      RunEnding(j);
      EndedReturns(j);
    }
  }

  /** The exact condition, over every run of every new job: a permit that is attached is never given
      back, whatever happens next, iff it is lost. */
  lemma NeverReturnedIff(j0: Job, events: seq<Event>)
    requires IsNew(j0) && Run(j0, events).slot.permit == Attached
    ensures (forall more :: Run(Run(j0, events), more).slot.permit == Attached) <==> Lost(Run(j0, events))
  {
    var j := Run(j0, events);
    RunKeeps(j0, events);
    StrandedIsLost(j0, events);
    if Lost(j) {
      forall more ensures Run(j, more).slot.permit == Attached { LostForever(j, more); }
    } else {
      var more := CanReturn(j);
    }
  }

  const DEFERRED: Kind := Kind(false, false, true, true)

  /** One way to lose a permit: shutdown fails a deferred job while its row is still being recorded,
      and the permit granted to it is attached afterwards. */
  lemma StrandedPermit()
    ensures Lost(Run(NewJob(DEFERRED, Loose, false, false), [DisposeBegin, Persisted(true), Recorded(true)]))
  {
    var trace := [DisposeBegin, Persisted(true), Recorded(true)];
    var j0 := NewJob(DEFERRED, Loose, false, false);
    var j1 := Step(j0, DisposeBegin);
    var j2 := Step(j1, Persisted(true));
    assert trace[1..] == [Persisted(true), Recorded(true)] && trace[1..][1..] == [Recorded(true)];
    assert Run(j2, [Recorded(true)]) == Step(j2, Recorded(true));
    assert Run(j1, trace[1..]) == Step(j2, Recorded(true));
  }

  /** The other: a deferred job is granted its permit from the queue while its row is being recorded,
      and the record fails, which drops the job from the table. */
  lemma HeldPermitLost()
    ensures Lost(Run(NewJob(DEFERRED, Waiting, false, false), [QueueGrant, Recorded(false)]))
  {
    var trace := [QueueGrant, Recorded(false)];
    var j1 := Step(NewJob(DEFERRED, Waiting, false, false), QueueGrant);
    assert trace[1..] == [Recorded(false)];
    assert Run(j1, [Recorded(false)]) == Step(j1, Recorded(false));
  }
}
