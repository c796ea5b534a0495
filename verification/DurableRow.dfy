/** One durable job row, written by any number of gateway instances.

    Every `await` of the manager is a place where anything else may run, so a store call has three
    separate moments: it is sent, with arguments read at that moment; it takes effect in the store;
    and its answer comes back.  A run is an arbitrary list of actions; an action that is not
    possible where it stands does nothing. */
module DurableRow {

  datatype Status = Queued | Running | Completed | Failed | Canceled | Orphaned

  /** completed, failed or canceled */
  predicate Settled(s: Status) { s == Completed || s == Failed || s == Canceled }

  const OPEN: set<Status> := {Queued, Running}

  datatype Output = Output(stdout: seq<char>, stderr: seq<char>)

  /** The row; `admissions` counts the `recordComplete` calls whose guard let them through. */
  datatype Row = Row(status: Status, out: Output, admissions: nat)

  /** What came back from a store call: whether a row was written, or an exception. */
  datatype Reply = Answer(applied: bool) | Failure

  /** What the store and the connection do with a call: carry it out, fail before it takes effect,
      or carry it out and lose the answer. */
  datatype Fate = Lands | FailsBefore | AnswerLost

  /** One link of the output write chain. */
  datatype FlushPhase = Idle | Sent(statuses: set<Status>) | Replied(reply: Reply)
  datatype Flush = Flush(snapshot: Output, phase: FlushPhase)

  /** One link of the terminal write chain: where its body has got to. */
  datatype Term =
    | Waiting
    | InProgress                                    // flushing progress
    | SentComplete(status: Status, out: Output)
    | GotComplete(reply: Reply)
    | SentLate(late: Output, statuses: set<Status>)
    | GotLate(reply: Reply)
    | Capturing                                     // capture accounting

  /** What one instance holds in memory about the job. */
  datatype Job = Job(
    status: Status,
    out: Output,
    dirty: bool,              // outputDirty
    rowLost: bool,            // durableOutputRowLost
    persisted: bool,          // terminalPersisted
    owned: bool,              // terminalRowOwned
    closed: bool,             // closeObserved
    flushes: seq<Flush>,      // outputWriteChain
    terms: seq<Term>)         // terminalWriteChain

  datatype World = World(row: Row, jobs: map<nat, Job>)

  datatype Local =
    | Launch                                                      // in memory: queued to running
    | MarkRunning                                                 // the guarded store transition
    | Chunk(stdout: seq<char>, stderr: seq<char>)
    | DecideFlush                                                 // maybeFlushOutput past its throttle
    | Finish(status: Status, stderr: seq<char>)                   // cancel, timeout, overflow
    | Close(status: Status, stdout: seq<char>, stderr: seq<char>) // close event or settled request
    | Persist                                                     // a retry of persistComplete
    | FlushSend
    | FlushStore(fate: Fate)
    | FlushReturn
    | TermBegin
    | TermCheck
    | TermStore(fate: Fate)
    | TermReturn
    | TermCaptured

  /** One step of one instance, or an orphan sweep by anybody. */
  datatype Action = Do(instance: nat, local: Local) | Sweep

  // ------------------------------------------------------------------ the store's guards

  function StoreComplete(row: Row, status: Status, out: Output): (Row, bool) {
    if Settled(row.status) then (row, false) else (Row(status, out, row.admissions + 1), true)
  }

  function StoreOutput(row: Row, out: Output, expected: set<Status>): (Row, bool) {
    if row.status in expected then (row.(out := out), true) else (row, false)
  }

  function StoreMarkRunning(row: Row): Row {
    if row.status == Queued then row.(status := Running) else row
  }

  function StoreSweep(row: Row): Row {
    if row.status in OPEN then row.(status := Orphaned) else row
  }

  // ------------------------------------------------------------------ the manager's decisions

  predicate MayWriteOutput(j: Job) { !j.rowLost && (!j.persisted || j.owned) }

  function OwnedStatuses(j: Job): set<Status> {
    if j.persisted && j.owned then {j.status} else OPEN
  }

  function AfterFate(before: Row, after: Row, applied: bool, fate: Fate): (Row, Reply) {
    match fate
    case Lands => (after, Answer(applied))
    case FailsBefore => (before, Failure)
    case AnswerLost => (after, Failure)
  }

  predicate Enabled(j: Job, a: Local) {
    match a
    case Launch => j.status == Queued
    case MarkRunning => true
    case Chunk(_, _) => !j.closed
    case DecideFlush => j.dirty
    case Finish(s, _) => !Settled(j.status) && Settled(s)
    case Close(s, _, _) => !j.closed && Settled(s)
    case Persist => true
    case FlushSend => j.flushes != [] && j.flushes[0].phase.Idle?
    case FlushStore(_) => j.flushes != [] && j.flushes[0].phase.Sent?
    case FlushReturn => j.flushes != [] && j.flushes[0].phase.Replied?
    case TermBegin => j.terms != [] && j.terms[0].Waiting?
    case TermCheck => j.terms != [] && j.terms[0].InProgress?
    case TermStore(_) => j.terms != [] && (j.terms[0].SentComplete? || j.terms[0].SentLate?)
    case TermReturn => j.terms != [] && (j.terms[0].GotComplete? || j.terms[0].GotLate?)
    case TermCaptured => j.terms != [] && j.terms[0].Capturing?
  }

  function FlushPhaseSet(j: Job, p: FlushPhase): Job
    requires j.flushes != []
  {
    j.(flushes := [j.flushes[0].(phase := p)] + j.flushes[1..])
  }

  function TermSet(j: Job, t: Term): Job
    requires j.terms != []
  {
    j.(terms := [t] + j.terms[1..])
  }

  /** A rejected fenced write tells the job that the row moved. */
  function NoteReply(j: Job, r: Reply): Job {
    if r == Answer(false) then j.(rowLost := true) else j
  }

  function ReplyToComplete(j: Job, r: Reply): Job {
    match r
    case Failure => j
    case Answer(applied) =>
      j.(persisted := true, owned := applied, rowLost := if applied then false else j.rowLost)
  }

  /** The body of persistComplete after its progress flush. */
  function Check(j: Job): Job
    requires j.terms != []
  {
    var k := j.(dirty := false);
    if !j.persisted then TermSet(k, SentComplete(j.status, j.out))
    else if MayWriteOutput(j) then TermSet(k, SentLate(j.out, OwnedStatuses(j)))
    else TermSet(k, Capturing)
  }

  function Step(j: Job, row: Row, a: Local): (Job, Row)
    requires Enabled(j, a)
  {
    match a
    case Launch => (j.(status := Running), row)
    case MarkRunning => (j, StoreMarkRunning(row))
    case Chunk(o, e) =>
      (j.(out := Output(j.out.stdout + o, j.out.stderr + e), dirty := true), row)
    case DecideFlush =>
      if MayWriteOutput(j) then
        (j.(dirty := false, flushes := j.flushes + [Flush(j.out, Idle)]), row)
      else (j.(dirty := false), row)
    case Finish(s, e) =>
      (j.(status := s, out := j.out.(stderr := e), terms := j.terms + [Waiting]), row)
    case Close(s, o, e) =>
      var k := j.(closed := true, terms := j.terms + [Waiting]);
      if Settled(j.status) then (k, row)
      else (k.(status := s, out := Output(j.out.stdout + o, e)), row)
    case Persist => (j.(terms := j.terms + [Waiting]), row)
    case FlushSend => (FlushPhaseSet(j, Sent(OwnedStatuses(j))), row)
    case FlushStore(fate) =>
      var (after, applied) := StoreOutput(row, j.flushes[0].snapshot, j.flushes[0].phase.statuses);
      var (r, reply) := AfterFate(row, after, applied, fate);
      (FlushPhaseSet(j, Replied(reply)), r)
    case FlushReturn =>
      (NoteReply(j.(flushes := j.flushes[1..]), j.flushes[0].phase.reply), row)
    case TermBegin =>
      if Settled(j.status) then (TermSet(j, InProgress), row) else (j.(terms := j.terms[1..]), row)
    case TermCheck => (Check(j), row)
    case TermStore(fate) =>
      (match j.terms[0]
       case SentComplete(s, o) =>
         var (after, applied) := StoreComplete(row, s, o);
         var (r, reply) := AfterFate(row, after, applied, fate);
         (TermSet(j, GotComplete(reply)), r)
       case SentLate(o, expected) =>
         var (after, applied) := StoreOutput(row, o, expected);
         var (r, reply) := AfterFate(row, after, applied, fate);
         (TermSet(j, GotLate(reply)), r))
    case TermReturn =>
      (match j.terms[0]
       case GotComplete(reply) => (ReplyToComplete(j.(terms := j.terms[1..]), reply), row)
       case GotLate(reply) => (TermSet(NoteReply(j, reply), Capturing), row))
    case TermCaptured => (j.(terms := j.terms[1..]), row)
  }

  function Next(w: World, a: Action): World {
    match a
    case Sweep => w.(row := StoreSweep(w.row))
    case Do(i, l) =>
      if i in w.jobs && Enabled(w.jobs[i], l) then
        var (j, row) := Step(w.jobs[i], w.row, l);
        World(row, w.jobs[i := j])
      else w
  }

  const FRESH_JOB: Job := Job(Queued, Output("", ""), false, false, false, false, false, [], [])

  function Start(instances: set<nat>): World {
    World(Row(Queued, Output("", ""), 0), map i | i in instances :: FRESH_JOB)
  }

  function Run(w: World, actions: seq<Action>): World
    decreases |actions|
  {
    if actions == [] then w else Run(Next(w, actions[0]), actions[1..])
  }

  // ------------------------------------------------------------------ what every instance keeps

  /** Where the head of the terminal chain stands, given the job and the row. */
  predicate TermOk(j: Job, row: Row, t: Term) {
    match t
    case Waiting => true
    case InProgress => Settled(j.status)
    case SentComplete(s, _) => !j.persisted && s == j.status && Settled(s)
    case GotComplete(Answer(true)) => !j.persisted && row.status == j.status && Settled(j.status)
    case GotComplete(Answer(false)) => !j.persisted && Settled(row.status) && Settled(j.status)
    case GotComplete(Failure) => !j.persisted && Settled(j.status)
    case SentLate(_, expected) => j.owned && expected == {j.status}
    case GotLate(_) => j.owned
    case Capturing => j.persisted
  }

  predicate FlushOk(j: Job, f: Flush) {
    f.phase.Sent? ==> f.phase.statuses == OPEN || (j.owned && f.phase.statuses == {j.status})
  }

  predicate JobOk(j: Job, row: Row) {
    && (j.owned ==> j.persisted && row.status == j.status)
    && (j.persisted ==> Settled(row.status) && Settled(j.status))
    && j.status != Orphaned
    && (j.terms != [] ==> TermOk(j, row, j.terms[0]))
    && (j.flushes != [] ==> FlushOk(j, j.flushes[0]))
    && (forall k :: 1 <= k < |j.terms| ==> j.terms[k].Waiting?)
    && (forall k :: 1 <= k < |j.flushes| ==> j.flushes[k].phase.Idle?)
  }

  predicate RowOk(row: Row) { row.admissions == if Settled(row.status) then 1 else 0 }

  /** What one instance may assume of the others: a settled status stays. */
  predicate Evolves(before: Row, after: Row) {
    && (Settled(before.status) ==> after.status == before.status)
    && before.admissions <= after.admissions
  }

  lemma JobOkStable(j: Job, before: Row, after: Row)
    requires JobOk(j, before) && Evolves(before, after)
    ensures JobOk(j, after)
  {
  }

  lemma FlushQueueKeeps(j: Job, row: Row, a: Local)
    requires JobOk(j, row) && RowOk(row) && Enabled(j, a)
    requires a.FlushSend? || a.DecideFlush?
    ensures var (k, r) := Step(j, row, a); JobOk(k, r) && RowOk(r) && Evolves(row, r) && (j.owned ==> k.owned)
  {
  }

  lemma FlushReplyKeeps(j: Job, row: Row, a: Local)
    requires JobOk(j, row) && RowOk(row) && Enabled(j, a)
    requires a.FlushStore? || a.FlushReturn?
    ensures var (k, r) := Step(j, row, a); JobOk(k, r) && RowOk(r) && Evolves(row, r) && (j.owned ==> k.owned)
  {
  }

  lemma TermBodyKeeps(j: Job, row: Row, a: Local)
    requires JobOk(j, row) && RowOk(row) && Enabled(j, a)
    requires a.TermBegin? || a.TermCheck? || a.TermCaptured?
    ensures var (k, r) := Step(j, row, a); JobOk(k, r) && RowOk(r) && Evolves(row, r) && (j.owned ==> k.owned)
  {
  }

  lemma TermReplyKeeps(j: Job, row: Row, a: Local)
    requires JobOk(j, row) && RowOk(row) && Enabled(j, a)
    requires a.TermStore? || a.TermReturn?
    ensures var (k, r) := Step(j, row, a); JobOk(k, r) && RowOk(r) && Evolves(row, r) && (j.owned ==> k.owned)
  {
  }

  lemma OtherStepKeeps(j: Job, row: Row, a: Local)
    requires JobOk(j, row) && RowOk(row) && Enabled(j, a)
    requires a.Launch? || a.MarkRunning? || a.Chunk? || a.Finish? || a.Close? || a.Persist?
    ensures var (k, r) := Step(j, row, a); JobOk(k, r) && RowOk(r) && Evolves(row, r) && (j.owned ==> k.owned)
  {
  }

  predicate WorldOk(w: World) {
    RowOk(w.row) && forall i | i in w.jobs :: JobOk(w.jobs[i], w.row)
  }

  lemma StepKeeps(j: Job, row: Row, a: Local)
    requires JobOk(j, row) && RowOk(row) && Enabled(j, a)
    ensures var (k, r) := Step(j, row, a); JobOk(k, r) && RowOk(r) && Evolves(row, r) && (j.owned ==> k.owned)
  {
    match a
    case FlushSend | DecideFlush => FlushQueueKeeps(j, row, a);
    case FlushStore(_) | FlushReturn => FlushReplyKeeps(j, row, a);
    case TermBegin | TermCheck | TermCaptured => TermBodyKeeps(j, row, a);
    case TermStore(_) | TermReturn => TermReplyKeeps(j, row, a);
    case _ => OtherStepKeeps(j, row, a);
  }

  lemma NextKeeps(w: World, a: Action)
    requires WorldOk(w)
    ensures WorldOk(Next(w, a)) && Evolves(w.row, Next(w, a).row)
    ensures Next(w, a).jobs.Keys == w.jobs.Keys
    ensures forall i | i in w.jobs && w.jobs[i].owned :: Next(w, a).jobs[i].owned
  {
    var v := Next(w, a);
    if a.Do? && a.instance in w.jobs && Enabled(w.jobs[a.instance], a.local) {
      StepKeeps(w.jobs[a.instance], w.row, a.local);
    }
    forall i | i in v.jobs && v.jobs[i] == w.jobs[i] ensures JobOk(v.jobs[i], v.row) {
      JobOkStable(w.jobs[i], w.row, v.row);
    }
  }

  // ------------------------------------------------------------------ results over every run

  lemma {:induction false} RunKeeps(w: World, actions: seq<Action>)
    requires WorldOk(w)
    ensures WorldOk(Run(w, actions)) && Evolves(w.row, Run(w, actions).row)
    ensures Run(w, actions).jobs.Keys == w.jobs.Keys
    ensures forall i | i in w.jobs && w.jobs[i].owned :: Run(w, actions).jobs[i].owned
    decreases |actions|
  {
    if actions != [] {
      NextKeeps(w, actions[0]);
      RunKeeps(Next(w, actions[0]), actions[1..]);
    }
  }

  lemma StartOk(instances: set<nat>)
    ensures WorldOk(Start(instances))
  {
  }

  /** However the instances interleave, crash into each other's writes or lose answers: a settled
      status never changes again, and ownership of the terminal row is never given up. */
  lemma SettledForever(instances: set<nat>, first: seq<Action>, more: seq<Action>)
    ensures var w := Run(Start(instances), first); var v := Run(w, more);
      && (Settled(w.row.status) ==> v.row.status == w.row.status)
      && (forall i | i in w.jobs && w.jobs[i].owned :: i in v.jobs && v.jobs[i].owned)
  {
    StartOk(instances);
    RunKeeps(Start(instances), first);
    RunKeeps(Run(Start(instances), first), more);
  }

  /** The store's guard admits at most one terminal write per row, and whoever owns the row agrees
      with it on the status, also when the row had been orphaned by mistake. */
  lemma OneAdmission(instances: set<nat>, actions: seq<Action>)
    ensures var w := Run(Start(instances), actions);
      && w.row.admissions <= 1
      && (w.row.admissions == 1 <==> Settled(w.row.status))
      && (forall i | i in w.jobs && w.jobs[i].owned :: w.row.status == w.jobs[i].status)
  {
    StartOk(instances);
    RunKeeps(Start(instances), actions);
  }

  /** Its own terminal write came back rejected. */
  predicate Rejected(j: Job) { j.persisted && !j.owned }

  /** An instance whose terminal write was rejected leaves the row alone, whatever it still has
      queued or in flight, and stays that way. */
  lemma RejectedNeverWrites(w: World, i: nat, l: Local)
    requires WorldOk(w) && i in w.jobs && Rejected(w.jobs[i])
    ensures Next(w, Do(i, l)).row == w.row && Rejected(Next(w, Do(i, l)).jobs[i])
  {
  }

  /** The steps of instance i taken out of a run. */
  predicate NeverMoves(w: World, i: nat, actions: seq<Action>)
    decreases |actions|
  {
    actions == [] ||
    ((actions[0].Do? && actions[0].instance == i ==> Next(w, actions[0]).row == w.row)
     && NeverMoves(Next(w, actions[0]), i, actions[1..]))
  }

  lemma {:induction false} RejectedForever(w: World, i: nat, actions: seq<Action>)
    requires WorldOk(w) && i in w.jobs && Rejected(w.jobs[i])
    ensures NeverMoves(w, i, actions)
    decreases |actions|
  {
    if actions != [] {
      NextKeeps(w, actions[0]);
      if actions[0].Do? && actions[0].instance == i { RejectedNeverWrites(w, i, actions[0].local); }
      RejectedForever(Next(w, actions[0]), i, actions[1..]);
    }
  }

  /** The row is settled, and not by a terminal write of this instance whose answer it has or may get. */
  predicate Stranger(j: Job, row: Row) {
    Settled(row.status) && !j.owned && !(j.terms != [] && j.terms[0] == GotComplete(Answer(true)))
  }

  /** Whoever does not own a settled row leaves it alone, with or without an answer to its own write. */
  lemma OnlyOwnersWrite(w: World, i: nat, l: Local)
    requires WorldOk(w) && i in w.jobs && Settled(w.row.status) && !w.jobs[i].owned
    ensures Next(w, Do(i, l)).row == w.row
  {
    if Enabled(w.jobs[i], l) { NonOwnerStep(w.jobs[i], w.row, l); }
  }

  lemma NonOwnerStep(j: Job, row: Row, l: Local)
    requires JobOk(j, row) && Enabled(j, l) && Settled(row.status) && !j.owned
    ensures Step(j, row, l).1 == row
  {
    if l.FlushStore? { assert FlushOk(j, j.flushes[0]); }
  }

  lemma StrangerStep(j: Job, row: Row, l: Local)
    requires JobOk(j, row) && Enabled(j, l) && Stranger(j, row)
    ensures Stranger(Step(j, row, l).0, row)
  {
  }

  lemma {:induction false} StrangersNeverMove(w: World, i: nat, actions: seq<Action>)
    requires WorldOk(w) && i in w.jobs && Stranger(w.jobs[i], w.row)
    ensures NeverMoves(w, i, actions)
    decreases |actions|
  {
    if actions != [] {
      NextKeeps(w, actions[0]);
      if actions[0].Do? && actions[0].instance == i && Enabled(w.jobs[i], actions[0].local) {
        OnlyOwnersWrite(w, i, actions[0].local);
        StrangerStep(w.jobs[i], w.row, actions[0].local);
      }
      StrangersNeverMove(Next(w, actions[0]), i, actions[1..]);
    }
  }

  /** A row orphaned by mistake heals: when its owner's terminal write takes effect the row holds
      the owner's status and output, no later action of anybody changes the status, and no later step of
      any other instance changes anything. */
  lemma OrphanHeals(w: World, i: nat, actions: seq<Action>)
    requires WorldOk(w) && i in w.jobs && w.row.status == Orphaned
    requires w.jobs[i].terms != [] && w.jobs[i].terms[0].SentComplete?
    ensures var v := Next(w, Do(i, TermStore(Lands)));
      && v.row.status == w.jobs[i].status && v.row.out == w.jobs[i].terms[0].out
      && Run(v, actions).row.status == w.jobs[i].status
      && (forall k | k in w.jobs && k != i :: NeverMoves(v, k, actions))
  {
    var v := Next(w, Do(i, TermStore(Lands)));
    HealingWrite(w.jobs[i], w.row);
    NextKeeps(w, Do(i, TermStore(Lands)));
    RunKeeps(v, actions);
    forall k | k in w.jobs && k != i ensures NeverMoves(v, k, actions) {
      NobodyElseWrote(w.jobs[k], w.row, v.row);
      StrangersNeverMove(v, k, actions);
    }
  }

  lemma HealingWrite(j: Job, row: Row)
    requires JobOk(j, row) && row.status == Orphaned && j.terms != [] && j.terms[0].SentComplete?
    ensures Step(j, row, TermStore(Lands)).1 == Row(j.status, j.terms[0].out, row.admissions + 1) && Settled(j.status)
  {
  }

  /** While a row is unsettled no instance owns it or has an answer that would make it the owner. */
  lemma NobodyElseWrote(j: Job, row: Row, after: Row)
    requires JobOk(j, row) && !Settled(row.status) && Settled(after.status)
    ensures Stranger(j, after)
  {
  }
}
