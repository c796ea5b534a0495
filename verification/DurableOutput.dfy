/** What the durable row holds of a job's output when only its owner writes it and other instances
    do no more than sweep. */
module DurableOutput {
  import opened Options
  import opened DurableRow
  import opened DurableEvents

  predicate Prefix(a: Output, b: Output) { a.stdout <= b.stdout }

  // ------------------------------------------------------------------ the durable text is a prefix

  predicate TermPrefix(t: Term, out: Output) {
    match t
    case SentComplete(_, o) => Prefix(o, out)
    case SentLate(o, _) => Prefix(o, out)
    case _ => true
  }

  predicate PrefixOk(j: Job, row: Row) {
    && Prefix(row.out, j.out)
    && (forall k :: 0 <= k < |j.flushes| ==> Prefix(j.flushes[k].snapshot, j.out))
    && (forall k :: 0 <= k < |j.terms| ==> TermPrefix(j.terms[k], j.out))
  }

  lemma PrefixGrows(j: Job, row: Row, k: Job)
    requires PrefixOk(j, row) && Prefix(j.out, k.out) && k.flushes == j.flushes
    requires k.terms == j.terms || k.terms == j.terms + [Waiting]
    ensures PrefixOk(k, row)
  {
    forall i | 0 <= i < |k.flushes| ensures Prefix(k.flushes[i].snapshot, k.out) {
      assert Prefix(j.flushes[i].snapshot, j.out);
    }
    forall i | 0 <= i < |k.terms| ensures TermPrefix(k.terms[i], k.out) {
      if i < |j.terms| { assert k.terms[i] == j.terms[i] && TermPrefix(j.terms[i], j.out); }
    }
  }

  lemma PrefixFlushes(j: Job, row: Row, k: Job, r: Row)
    requires PrefixOk(j, row) && k.out == j.out && k.terms == j.terms && Prefix(r.out, j.out)
    requires forall i | 0 <= i < |k.flushes| && k.flushes[i].snapshot != j.out ::
      exists m :: 0 <= m < |j.flushes| && k.flushes[i].snapshot == j.flushes[m].snapshot
    ensures PrefixOk(k, r)
  {
  }

  lemma PrefixTerms(j: Job, row: Row, k: Job, r: Row)
    requires PrefixOk(j, row) && k.out == j.out && k.flushes == j.flushes && Prefix(r.out, j.out)
    requires j.terms != []
    requires k.terms == j.terms[1..]
      || (k.terms != [] && k.terms == [k.terms[0]] + j.terms[1..] && TermPrefix(k.terms[0], j.out))
    ensures PrefixOk(k, r)
  {
    forall i | 0 <= i < |k.terms| ensures TermPrefix(k.terms[i], k.out) {
      if k.terms == j.terms[1..] {
        assert TermPrefix(j.terms[i + 1], j.out);
      } else if i > 0 {
        assert TermPrefix(j.terms[i], j.out);
      }
    }
  }

  lemma PrefixFlushStep(j: Job, row: Row, a: Local)
    requires PrefixOk(j, row) && Enabled(j, a) && (a.FlushSend? || a.FlushStore? || a.FlushReturn? || a.DecideFlush?)
    ensures var (k, r) := Step(j, row, a); PrefixOk(k, r)
  {
    var (k, r) := Step(j, row, a);
    if a.FlushReturn? {
      assert forall i :: 0 <= i < |k.flushes| ==> k.flushes[i] == j.flushes[i + 1];
    } else {
      assert forall i :: 0 <= i < |k.flushes| && i < |j.flushes| ==> k.flushes[i].snapshot == j.flushes[i].snapshot;
    }
    PrefixFlushes(j, row, k, r);
  }

  lemma PrefixTermStep(j: Job, row: Row, a: Local)
    requires PrefixOk(j, row) && Enabled(j, a)
    requires a.TermBegin? || a.TermCheck? || a.TermStore? || a.TermReturn? || a.TermCaptured?
    ensures var (k, r) := Step(j, row, a); PrefixOk(k, r)
  {
    var (k, r) := Step(j, row, a);
    assert TermPrefix(j.terms[0], j.out);
    PrefixTerms(j, row, k, r);
  }

  lemma PrefixStep(j: Job, row: Row, a: Local)
    requires PrefixOk(j, row) && Enabled(j, a)
    ensures var (k, r) := Step(j, row, a); PrefixOk(k, r)
  {
    match a
    case FlushStore(_) | FlushSend | FlushReturn | DecideFlush => PrefixFlushStep(j, row, a);
    case TermBegin | TermCheck | TermStore(_) | TermReturn | TermCaptured => PrefixTermStep(j, row, a);
    case _ =>
      var (k, r) := Step(j, row, a);
      PrefixGrows(j, row, k);
      assert r.out == row.out;
  }

  /** In every run of one owner and any sweeps, with calls failing or losing their answers at will,
      the durable stdout is a prefix of what the owner captured. */
  lemma {:induction false} DurableIsPrefix(o: nat, w: World, actions: seq<Action>)
    requires w.jobs.Keys == {o} && PrefixOk(w.jobs[o], w.row)
    ensures var v := Run(w, actions); v.jobs.Keys == {o} && PrefixOk(v.jobs[o], v.row)
    decreases |actions|
  {
    if actions != [] {
      var v := Next(w, actions[0]);
      if actions[0].Do? && actions[0].instance == o && Enabled(w.jobs[o], actions[0].local) {
        PrefixStep(w.jobs[o], w.row, actions[0].local);
      }
      assert v.jobs.Keys == {o};
      DurableIsPrefix(o, v, actions[1..]);
    }
  }

  lemma DurableIsPrefixFromStart(o: nat, actions: seq<Action>)
    ensures var v := Run(Start({o}), actions); v.jobs.Keys == {o} && v.row.out.stdout <= v.jobs[o].out.stdout
    ensures Run(Start({o}), actions).row.out.stdout <= Arrived(actions, o).stdout
  {
    JobIsWhatItWasTold({o}, actions, o);
    DurableIsPrefix(o, Start({o}), actions);
  }

  // ------------------------------------------------------------------ calls that do not overlap

  /** Between sending a store call of the terminal chain and its return. */
  predicate TermCalling(j: Job) {
    j.terms != []
    && (j.terms[0].SentComplete? || j.terms[0].GotComplete? || j.terms[0].SentLate? || j.terms[0].GotLate?)
  }

  /** The action does not start a call of one chain while the other chain has one to finish, and the
      store carries out what it is sent. */
  predicate Serial(j: Job, a: Local) {
    match a
    case TermCheck => j.flushes == []
    case FlushSend => !TermCalling(j)
    case FlushStore(fate) => fate == Lands
    case TermStore(fate) => fate == Lands
    case _ => true
  }

  predicate SerialRun(o: nat, w: World, actions: seq<Action>)
    decreases |actions|
  {
    actions == [] ||
    ((actions[0].Do? && actions[0].instance == o && o in w.jobs && Enabled(w.jobs[o], actions[0].local)
      ==> Serial(w.jobs[o], actions[0].local))
     && SerialRun(o, Next(w, actions[0]), actions[1..]))
  }

  /** Every body in the terminal chain is past its last output write. */
  predicate PastWrites(j: Job) {
    j.terms == [] || (|j.terms| == 1 && (j.terms[0].GotComplete? || j.terms[0].GotLate? || j.terms[0].Capturing?))
  }

  predicate AllFlushes(j: Job, out: Output) { forall k :: 0 <= k < |j.flushes| ==> j.flushes[k].snapshot == out }

  /** One owner, no overlap: nobody else settled the row, no flush is in flight across a terminal
      call, and nothing of the owner's is rejected once it owns the row. */
  predicate SerialOk(j: Job, row: Row) {
    && JobOk(j, row)
    && (TermCalling(j) ==> j.flushes == [] || j.flushes[0].phase.Idle?)
    && (j.persisted ==> j.owned && !j.rowLost)
    && (!j.persisted && !(j.terms != [] && j.terms[0].GotComplete?) ==> !Settled(row.status))
    && (j.terms != [] && j.terms[0].GotComplete? ==> j.terms[0].reply == Answer(true))
    && (j.terms != [] && j.terms[0].GotLate? ==> j.terms[0].reply == Answer(true))
    && (j.owned && j.flushes != [] && j.flushes[0].phase.Sent? ==> j.flushes[0].phase.statuses == {j.status})
    && (j.owned && j.flushes != [] && j.flushes[0].phase.Replied? ==> j.flushes[0].phase.reply == Answer(true))
  }

  /** After the close event, a terminal body past its write has put everything in the row. */
  predicate ClosedOk(j: Job, row: Row) {
    j.closed ==>
      && Settled(j.status)
      && (PastWrites(j) ==> row.out == j.out && AllFlushes(j, j.out) && (j.terms == [] ==> j.persisted))
      && (|j.terms| == 1 && j.terms[0].SentComplete? ==> j.terms[0].out == j.out && AllFlushes(j, j.out))
      && (|j.terms| == 1 && j.terms[0].SentLate? ==> j.terms[0].late == j.out && AllFlushes(j, j.out))
  }

  lemma SerialFlushStep(j: Job, row: Row, a: Local)
    requires SerialOk(j, row) && RowOk(row) && Enabled(j, a) && Serial(j, a)
    requires a.FlushSend? || a.FlushStore? || a.FlushReturn? || a.DecideFlush?
    ensures var (k, r) := Step(j, row, a); JobOk(k, r) ==> SerialOk(k, r)
  {
  }

  lemma SerialTermStep(j: Job, row: Row, a: Local)
    requires SerialOk(j, row) && RowOk(row) && Enabled(j, a) && Serial(j, a)
    requires a.TermBegin? || a.TermCheck? || a.TermCaptured?
    ensures var (k, r) := Step(j, row, a); JobOk(k, r) ==> SerialOk(k, r)
  {
  }

  lemma SerialReplyStep(j: Job, row: Row, a: Local)
    requires SerialOk(j, row) && RowOk(row) && Enabled(j, a) && Serial(j, a)
    requires a.TermStore? || a.TermReturn?
    ensures var (k, r) := Step(j, row, a); JobOk(k, r) ==> SerialOk(k, r)
  {
  }

  lemma SerialEventStep(j: Job, row: Row, a: Local)
    requires SerialOk(j, row) && RowOk(row) && Enabled(j, a) && Serial(j, a)
    requires a.Launch? || a.MarkRunning? || a.Chunk? || a.Finish? || a.Close? || a.Persist?
    ensures var (k, r) := Step(j, row, a); JobOk(k, r) ==> SerialOk(k, r)
  {
  }

  lemma SerialStep(j: Job, row: Row, a: Local)
    requires SerialOk(j, row) && RowOk(row) && Enabled(j, a) && Serial(j, a)
    ensures var (k, r) := Step(j, row, a); SerialOk(k, r)
  {
    StepKeeps(j, row, a);
    match a
    case FlushSend | FlushStore(_) | FlushReturn | DecideFlush => SerialFlushStep(j, row, a);
    case TermBegin | TermCheck | TermCaptured => SerialTermStep(j, row, a);
    case TermStore(_) | TermReturn => SerialReplyStep(j, row, a);
    case _ => SerialEventStep(j, row, a);
  }

  lemma ClosedFlushStep(j: Job, row: Row, a: Local)
    requires SerialOk(j, row) && ClosedOk(j, row) && Enabled(j, a) && Serial(j, a)
    requires a.FlushSend? || a.FlushStore? || a.FlushReturn? || a.DecideFlush?
    ensures var (k, r) := Step(j, row, a); ClosedOk(k, r)
  {
    if a.FlushReturn? {
      var k := Step(j, row, a).0;
      assert forall i :: 0 <= i < |k.flushes| ==> k.flushes[i] == j.flushes[i + 1];
    }
  }

  lemma ClosedTermStep(j: Job, row: Row, a: Local)
    requires SerialOk(j, row) && ClosedOk(j, row) && Enabled(j, a) && Serial(j, a)
    requires a.TermBegin? || a.TermCheck? || a.TermCaptured?
    ensures var (k, r) := Step(j, row, a); ClosedOk(k, r)
  {
  }

  lemma ClosedReplyStep(j: Job, row: Row, a: Local)
    requires SerialOk(j, row) && ClosedOk(j, row) && Enabled(j, a) && Serial(j, a)
    requires a.TermStore? || a.TermReturn?
    ensures var (k, r) := Step(j, row, a); ClosedOk(k, r)
  {
  }

  lemma ClosedEventStep(j: Job, row: Row, a: Local)
    requires SerialOk(j, row) && ClosedOk(j, row) && Enabled(j, a) && Serial(j, a)
    requires a.Launch? || a.MarkRunning? || a.Chunk? || a.Finish? || a.Close? || a.Persist?
    ensures var (k, r) := Step(j, row, a); ClosedOk(k, r)
  {
  }

  lemma ClosedStep(j: Job, row: Row, a: Local)
    requires SerialOk(j, row) && ClosedOk(j, row) && Enabled(j, a) && Serial(j, a)
    ensures var (k, r) := Step(j, row, a); ClosedOk(k, r)
  {
    match a
    case FlushSend | FlushStore(_) | FlushReturn | DecideFlush => ClosedFlushStep(j, row, a);
    case TermBegin | TermCheck | TermCaptured => ClosedTermStep(j, row, a);
    case TermStore(_) | TermReturn => ClosedReplyStep(j, row, a);
    case _ => ClosedEventStep(j, row, a);
  }

  lemma SweepStep(j: Job, row: Row)
    requires SerialOk(j, row) && ClosedOk(j, row)
    ensures SerialOk(j, StoreSweep(row)) && ClosedOk(j, StoreSweep(row))
  {
  }

  lemma {:induction false} SerialRunKeeps(o: nat, w: World, actions: seq<Action>)
    requires w.jobs.Keys == {o} && RowOk(w.row) && SerialOk(w.jobs[o], w.row) && ClosedOk(w.jobs[o], w.row)
    requires SerialRun(o, w, actions)
    ensures var v := Run(w, actions); v.jobs.Keys == {o} && SerialOk(v.jobs[o], v.row) && ClosedOk(v.jobs[o], v.row)
    decreases |actions|
  {
    if actions != [] {
      var v := Next(w, actions[0]);
      match actions[0] {
        case Sweep => SweepStep(w.jobs[o], w.row);
        case Do(i, l) =>
          if i == o && Enabled(w.jobs[o], l) {
            SerialStep(w.jobs[o], w.row, l);
            ClosedStep(w.jobs[o], w.row, l);
            StepKeeps(w.jobs[o], w.row, l);
          }
      }
      assert v.jobs.Keys == {o};
      SerialRunKeeps(o, v, actions[1..]);
    }
  }

  /** When store calls succeed and the two chains do not overlap, a closed job whose chains have
      drained owns its row, and the row holds the job's status and all of its output: the status of the
      job's first ending, and all the text that arrived. */
  lemma NothingIsLost(o: nat, actions: seq<Action>)
    requires SerialRun(o, Start({o}), actions)
    ensures var v := Run(Start({o}), actions);
      && o in v.jobs
      && (v.jobs[o].closed && v.jobs[o].terms == [] ==>
          v.jobs[o].owned && v.row.status == v.jobs[o].status && v.row.out == v.jobs[o].out
          && FirstEnd(actions, o) == Some(v.row.status) && v.row.out == Arrived(actions, o))
  {
    SerialRunKeeps(o, Start({o}), actions);
    JobIsWhatItWasTold({o}, actions, o);
  }

  // ------------------------------------------------------------------ when the chains do overlap

  /** One more step of the only instance, written out. */
  lemma Extend(actions: seq<Action>, j: Job, row: Row, l: Local) returns (longer: seq<Action>, k: Job, r: Row)
    requires Run(Start({0}), actions) == World(row, map[0 := j]) && Enabled(j, l)
    ensures Run(Start({0}), longer) == World(r, map[0 := k]) && (k, r) == Step(j, row, l)
  {
    var (k', r') := Step(j, row, l);
    RunSnoc(Start({0}), actions, Do(0, l));
    longer, k, r := actions + [Do(0, l)], k', r';
    assert map[0 := j][0 := k] == map[0 := k];
  }

  lemma Fresh() returns (actions: seq<Action>, j: Job, row: Row)
    ensures Run(Start({0}), actions) == World(row, map[0 := j])
    ensures j == FRESH_JOB && row == Row(Queued, Output("", ""), 0)
  {
    actions, j, row := [], FRESH_JOB, Row(Queued, Output("", ""), 0);
    assert Start({0}).jobs == map[0 := FRESH_JOB];
  }

  /** A flush answered but not yet returned, a second one behind it, and the job still running. */
  lemma TwoFlushes() returns (p: seq<Action>, j: Job, row: Row)
    ensures Run(Start({0}), p) == World(row, map[0 := j])
    ensures row == Row(Running, Output("a", ""), 0)
    ensures j == Job(Running, Output("ab", ""), false, false, false, false, false,
                     [Flush(Output("a", ""), Replied(Answer(true))), Flush(Output("ab", ""), Idle)], [])
  {
    p, j, row := Fresh();
    p, j, row := Extend(p, j, row, Launch);
    p, j, row := Extend(p, j, row, MarkRunning);
    p, j, row := Extend(p, j, row, Chunk("a", ""));
    assert j.out == Output("a", "");
    p, j, row := Extend(p, j, row, DecideFlush);
    assert j.flushes == [Flush(Output("a", ""), Idle)];
    p, j, row := Extend(p, j, row, FlushSend);
    p, j, row := Extend(p, j, row, Chunk("b", ""));
    assert j.out == Output("ab", "") && j.flushes == [Flush(Output("a", ""), Sent(OPEN))];
    p, j, row := Extend(p, j, row, DecideFlush);
    p, j, row := Extend(p, j, row, FlushStore(Lands));
  }

  /** The body of a terminal write, from its start to its return. */
  lemma WritesTerminalRow(p0: seq<Action>, j0: Job, row0: Row) returns (p: seq<Action>, j: Job, row: Row)
    requires Run(Start({0}), p0) == World(row0, map[0 := j0])
    requires Settled(j0.status) && !j0.persisted && j0.terms == [Waiting] && !Settled(row0.status)
    ensures Run(Start({0}), p) == World(row, map[0 := j])
    ensures row == Row(j0.status, j0.out, row0.admissions + 1)
    ensures j == j0.(dirty := false, rowLost := false, persisted := true, owned := true, terms := [])
  {
    p, j, row := Extend(p0, j0, row0, TermBegin);
    p, j, row := Extend(p, j, row, TermCheck);
    assert j.terms == [SentComplete(j0.status, j0.out)];
    p, j, row := Extend(p, j, row, TermStore(Lands));
    assert j.terms == [GotComplete(Answer(true))];
    p, j, row := Extend(p, j, row, TermReturn);
  }

  /** From a running job to its terminal write returned, with nothing else happening in between. */
  lemma ClosesAndOwns(p0: seq<Action>, j0: Job, row0: Row) returns (p: seq<Action>, j: Job, row: Row)
    requires Run(Start({0}), p0) == World(row0, map[0 := j0])
    requires j0.status == Running && !j0.persisted && !j0.closed && j0.terms == [] && row0.status == Running
    ensures Run(Start({0}), p) == World(row, map[0 := j])
    ensures row == Row(Completed, Output(j0.out.stdout + "c", ""), row0.admissions + 1) && j.out == row.out
    ensures j.closed && j.owned && j.persisted && j.status == Completed && j.terms == [] && j.flushes == j0.flushes
  {
    p, j, row := Extend(p0, j0, row0, Close(Completed, "c", ""));
    assert j.terms == [Waiting];
    p, j, row := WritesTerminalRow(p, j, row);
  }

  /** Without that restriction text is lost.  A flush decided before the close can sit behind a slow
      one until the terminal write has landed; it then overwrites the row with its older snapshot,
      and nothing writes again. */
  lemma StaleFlushTruncates()
    ensures exists actions :: var v := Run(Start({0}), actions); 0 in v.jobs && var j := v.jobs[0];
      j.closed && j.owned && j.terms == [] && j.flushes == [] && v.row.out != j.out
  {
    var p, j, row := TwoFlushes();
    p, j, row := ClosesAndOwns(p, j, row);
    assert j.out.stdout == "abc";
    p, j, row := Extend(p, j, row, FlushReturn);
    assert j.flushes == [Flush(Output("ab", ""), Idle)];
    p, j, row := Extend(p, j, row, FlushSend);
    p, j, row := Extend(p, j, row, FlushStore(Lands));
    p, j, row := Extend(p, j, row, FlushReturn);
    assert |row.out.stdout| != |j.out.stdout|;
  }

  /** A cancelled job that owns its row while a flush of its own is still in flight. */
  lemma CanceledWithFlushInFlight() returns (p: seq<Action>, j: Job, row: Row)
    ensures Run(Start({0}), p) == World(row, map[0 := j])
    ensures row == Row(Canceled, Output("a", ""), 1)
    ensures j == Job(Canceled, Output("a", ""), false, false, true, true, false,
                     [Flush(Output("a", ""), Sent(OPEN))], [])
  {
    p, j, row := Fresh();
    p, j, row := Extend(p, j, row, Launch);
    p, j, row := Extend(p, j, row, MarkRunning);
    p, j, row := Extend(p, j, row, Chunk("a", ""));
    assert j.out == Output("a", "");
    p, j, row := Extend(p, j, row, DecideFlush);
    p, j, row := Extend(p, j, row, FlushSend);
    assert j.flushes == [Flush(Output("a", ""), Sent(OPEN))];
    p, j, row := Extend(p, j, row, Finish(Canceled, ""));
    p, j, row := WritesTerminalRow(p, j, row);
  }

  /** The same job once that flush has come back rejected. */
  lemma CanceledWithRowLost() returns (p: seq<Action>, j: Job, row: Row)
    ensures Run(Start({0}), p) == World(row, map[0 := j])
    ensures row == Row(Canceled, Output("a", ""), 1)
    ensures j == Job(Canceled, Output("a", ""), false, true, true, true, false, [], [])
  {
    p, j, row := CanceledWithFlushInFlight();
    p, j, row := Extend(p, j, row, FlushStore(Lands));
    p, j, row := Extend(p, j, row, FlushReturn);
  }

  /** A flush in flight while the job's own cancellation lands is rejected by the row that the job
      itself settled.  The rejection is taken for another writer's, and the output that arrives
      until the close is never written. */
  lemma OwnWriteDisablesRescue()
    ensures exists actions :: var v := Run(Start({0}), actions); 0 in v.jobs && var j := v.jobs[0];
      j.closed && j.owned && j.rowLost && j.terms == [] && j.flushes == [] && v.row.out != j.out
  {
    var p, j, row := CanceledWithRowLost();
    p, j, row := Extend(p, j, row, Chunk("b", ""));
    p, j, row := Extend(p, j, row, Close(Canceled, "", ""));
    assert j.terms == [Waiting];
    p, j, row := Extend(p, j, row, TermBegin);
    p, j, row := Extend(p, j, row, TermCheck);
    p, j, row := Extend(p, j, row, TermCaptured);
    assert |row.out.stdout| != |j.out.stdout|;
  }

  function NextFlushStep(f: Flush): Local {
    match f.phase
    case Idle => FlushSend
    case Sent(_) => FlushStore(Lands)
    case Replied(_) => FlushReturn
  }

  /** Steps left for the flush at the head. */
  function DrainRank(j: Job): nat {
    if j.flushes == [] || j.flushes[0].phase.Idle? then 2 else if j.flushes[0].phase.Sent? then 1 else 0
  }

  /** The rest of the output chain, carried out without failures. */
  function Drain(j: Job, row: Row): (Job, Row)
    decreases |j.flushes|, DrainRank(j)
  {
    if j.flushes == [] then (j, row)
    else
      var (k, r) := Step(j, row, NextFlushStep(j.flushes[0]));
      Drain(k, r)
  }

  /** The flush that will write last: the last one, unless it is the head and was already answered,
      or was sent under the open statuses that the settled row no longer has. */
  predicate WritesLast(j: Job) {
    j.flushes != [] &&
    (|j.flushes| > 1 || j.flushes[0].phase.Idle? || (j.flushes[0].phase.Sent? && j.flushes[0].phase.statuses != OPEN))
  }

  predicate FinalText(j: Job, row: Row, out: Output) {
    out == if WritesLast(j) then j.flushes[|j.flushes| - 1].snapshot else row.out
  }

  lemma ReturnStepOutput(j: Job, row: Row)
    requires JobOk(j, row) && j.flushes != [] && j.flushes[0].phase.Replied?
    ensures var (k, r) := Step(j, row, FlushReturn); forall out :: FinalText(k, r, out) ==> FinalText(j, row, out)
  {
    var (k, r) := Step(j, row, FlushReturn);
    var n := |j.flushes|;
    assert r == row && k.flushes == j.flushes[1..];
    if n > 1 { assert k.flushes[0].phase.Idle? && k.flushes[n - 2] == j.flushes[n - 1]; }
  }

  lemma OneStepOutput(j: Job, row: Row)
    requires JobOk(j, row) && j.owned && j.flushes != []
    ensures var (k, r) := Step(j, row, NextFlushStep(j.flushes[0]));
      forall out :: FinalText(k, r, out) ==> FinalText(j, row, out)
  {
    var (k, r) := Step(j, row, NextFlushStep(j.flushes[0]));
    var n := |j.flushes|;
    if j.flushes[0].phase.Replied? {
      ReturnStepOutput(j, row);
    } else {
      assert {j.status} != OPEN by { assert Queued in OPEN && Queued !in {j.status}; }
      assert |k.flushes| == n && k.flushes[n - 1].snapshot == j.flushes[n - 1].snapshot;
    }
  }

  /** What a settled row holds once the owner's remaining flushes are through. */
  lemma {:induction false} DrainedOutput(j: Job, row: Row)
    requires JobOk(j, row) && RowOk(row) && j.owned
    ensures FinalText(j, row, Drain(j, row).1.out)
    decreases |j.flushes|, DrainRank(j)
  {
    if j.flushes != [] {
      var next := NextFlushStep(j.flushes[0]);
      var (k, r) := Step(j, row, next);
      StepKeeps(j, row, next);
      DrainedOutput(k, r);
      OneStepOutput(j, row);
    }
  }

  /** The exact condition: with everything in the row and the output chain still to drain, all of it
      survives iff the flush that writes last carries all of it. */
  lemma CompleteIff(j: Job, row: Row)
    requires JobOk(j, row) && RowOk(row) && j.owned && row.out == j.out
    ensures Drain(j, row).1.out == j.out <==> (WritesLast(j) ==> j.flushes[|j.flushes| - 1].snapshot == j.out)
  {
    DrainedOutput(j, row);
  }

  // ------------------------------------------------------------------ when the late rescue is on

  /** The flush at the head of the chain was sent under the open statuses, or came back rejected. */
  predicate HeadRejected(j: Job) {
    j.flushes != [] && (j.flushes[0].phase == Sent(OPEN) || j.flushes[0].phase == Replied(Answer(false)))
  }

  /** Draining sends nothing new to the job but the answers of its own flushes. */
  lemma {:induction false} DrainKeeps(j: Job, row: Row)
    requires JobOk(j, row) && RowOk(row) && j.owned
    ensures var (k, r) := Drain(j, row);
      && JobOk(k, r) && RowOk(r) && k.flushes == []
      && k == j.(flushes := [], rowLost := k.rowLost) && r.status == row.status
      && (PrefixOk(j, row) ==> PrefixOk(k, r))
    decreases |j.flushes|, DrainRank(j)
  {
    if j.flushes != [] {
      var next := NextFlushStep(j.flushes[0]);
      StepKeeps(j, row, next);
      if PrefixOk(j, row) { PrefixStep(j, row, next); }
      DrainStepKeeps(j, row);
      var (k, r) := Step(j, row, next);
      DrainKeeps(k, r);
    }
  }

  lemma DrainStepKeeps(j: Job, row: Row)
    requires JobOk(j, row) && RowOk(row) && j.owned && j.flushes != []
    ensures var (k, r) := Step(j, row, NextFlushStep(j.flushes[0]));
      k == j.(flushes := k.flushes, rowLost := k.rowLost) && r.status == row.status
      && (j.rowLost || HeadRejected(j) <==> k.rowLost || HeadRejected(k))
  {
    var (k, r) := Step(j, row, NextFlushStep(j.flushes[0]));
    assert {j.status} != OPEN by { assert Queued in OPEN && Queued !in {j.status}; }
    assert |j.flushes| > 1 ==> j.flushes[1].phase.Idle?;
    match j.flushes[0].phase
    case Idle => assert k.flushes[0].phase == Sent({j.status});
    case Sent(_) => assert k.rowLost == j.rowLost;
    case Replied(_) => assert k.flushes == j.flushes[1..];
  }

  /** Once the owner's terminal write has returned, its rescue of late output is switched off while the
      output chain drains exactly when the flush in flight had been sent before that write. */
  lemma {:induction false} RescueSwitchedOffIff(j: Job, row: Row)
    requires JobOk(j, row) && RowOk(row) && j.owned
    ensures Drain(j, row).0.rowLost <==> j.rowLost || HeadRejected(j)
    decreases |j.flushes|, DrainRank(j)
  {
    if j.flushes != [] {
      var next := NextFlushStep(j.flushes[0]);
      StepKeeps(j, row, next);
      DrainStepKeeps(j, row);
      var (k, r) := Step(j, row, next);
      RescueSwitchedOffIff(k, r);
    }
  }

  /** Output that arrives after the terminal write, the close behind it, and the late terminal body up
      to the store call it decides on. */
  function LateCheck(j: Job, row: Row, chunk: Output, s: Status): Job
    requires j.owned && Settled(j.status) && Settled(s) && !j.closed && j.terms == []
  {
    var a := Step(j, row, Chunk(chunk.stdout, chunk.stderr)).0;
    var b := Step(a, row, Close(s, [], [])).0;
    Step(Step(b, row, TermBegin).0, row, TermCheck).0
  }

  /** The rest of that body, with its store call carried out. */
  function LateRest(d: Job, row: Row): (Job, Row)
    requires d.terms != [] && (d.terms[0].SentLate? || d.terms[0].Capturing?)
  {
    if d.terms[0].SentLate? then
      var (f, r) := Step(d, row, TermStore(Lands));
      (Step(Step(f, r, TermReturn).0, r, TermCaptured).0, r)
    else (Step(d, row, TermCaptured).0, row)
  }

  function After(j: Job, chunk: Output): Output { Output(j.out.stdout + chunk.stdout, j.out.stderr + chunk.stderr) }

  lemma LateCheckDecides(j: Job, row: Row, chunk: Output, s: Status)
    requires j.owned && j.persisted && Settled(j.status) && Settled(s) && !j.closed && j.terms == []
    ensures LateCheck(j, row, chunk, s)
         == j.(out := After(j, chunk), dirty := false, closed := true,
               terms := [if j.rowLost then Capturing else SentLate(After(j, chunk), {j.status})])
  {
    var a := Step(j, row, Chunk(chunk.stdout, chunk.stderr)).0;
    var b := Step(a, row, Close(s, [], [])).0;
    assert b == j.(out := After(j, chunk), dirty := true, closed := true, terms := [Waiting]);
    var c := Step(b, row, TermBegin).0;
    assert c == b.(terms := [InProgress]);
  }

  lemma LateRestWrites(d: Job, row: Row, out: Output)
    requires d.terms == [SentLate(out, {row.status})]
    ensures LateRest(d, row) == (d.(terms := []), row.(out := out))
  {
    var (f, r) := Step(d, row, TermStore(Lands));
    assert r == row.(out := out) && f == d.(terms := [GotLate(Answer(true))]);
  }

  lemma LateCloseWrites(j: Job, row: Row, chunk: Output, s: Status)
    requires JobOk(j, row) && RowOk(row) && PrefixOk(j, row) && chunk.stdout != []
    requires j.owned && Settled(s) && !j.closed && j.terms == []
    ensures var d := LateCheck(j, row, chunk, s);
      && d.terms != [] && (d.terms[0].SentLate? || d.terms[0].Capturing?)
      && var (k, r) := LateRest(d, row);
         k.closed && k.terms == [] && k.out == After(j, chunk) && (r.out == k.out <==> !j.rowLost)
  {
    var d := LateCheck(j, row, chunk, s);
    LateCheckDecides(j, row, chunk, s);
    if j.rowLost {
      assert |row.out.stdout| < |After(j, chunk).stdout|;
    } else {
      LateRestWrites(d, row, After(j, chunk));
    }
  }

  /** One schedule.  In every run of one owner, take the moment its terminal write has returned: let the
      output chain drain first, then one more chunk arrive with no flush decided for it, and the job
      close.  The row then holds all of the output exactly when no flush sent before the terminal write
      was still to be answered. */
  lemma LateOutputIff(o: nat, actions: seq<Action>, chunk: Output, s: Status)
    requires var j := Run(Start({o}), actions).jobs;
      o in j && j[o].owned && !j[o].rowLost && !j[o].closed && j[o].terms == []
    requires Settled(s) && chunk.stdout != []
    ensures var w := Run(Start({o}), actions); var j := w.jobs[o];
      var (k, r) := Drain(j, w.row);
      && k.owned && k.persisted && Settled(k.status) && !k.closed && k.terms == []
      && var d := LateCheck(k, r, chunk, s);
      && d.terms != [] && (d.terms[0].SentLate? || d.terms[0].Capturing?)
      && var (l, x) := LateRest(d, r);
         l.closed && l.terms == [] && l.out == After(j, chunk) && (x.out == l.out <==> !HeadRejected(j))
  {
    var w := Run(Start({o}), actions);
    var j := w.jobs[o];
    StartOk({o});
    RunKeeps(Start({o}), actions);
    DurableIsPrefix(o, Start({o}), actions);
    DrainKeeps(j, w.row);
    RescueSwitchedOffIff(j, w.row);
    var (k, r) := Drain(j, w.row);
    LateCloseWrites(k, r, chunk, s);
  }

  // ------------------------------------------------------------------ late output in every interleaving

  /** The steps of the two write chains, with store calls carried out. */
  predicate ChainStep(l: Local) {
    l == FlushSend || l == FlushStore(Lands) || l == FlushReturn || l == DecideFlush
    || l == TermCheck || l == TermStore(Lands) || l == TermReturn || l == TermCaptured
  }

  /** A schedule of those steps; one that is not possible where it stands does nothing. */
  function Exec(j: Job, row: Row, ls: seq<Local>): (Job, Row)
    decreases |ls|
  {
    if ls == [] then (j, row)
    else
      var (k, r) := Try(j, row, ls[0]);
      Exec(k, r, ls[1..])
  }

  function Try(j: Job, row: Row, l: Local): (Job, Row) { if Enabled(j, l) then Step(j, row, l) else (j, row) }

  predicate Schedule(ls: seq<Local>) { forall i | 0 <= i < |ls| :: ChainStep(ls[i]) }

  predicate Drained(j: Job) { j.flushes == [] && j.terms == [] }

  /** Every schedule that drains both chains leaves all of the output in the row. */
  ghost predicate AlwaysComplete(j: Job, row: Row) {
    forall ls | Schedule(ls) && Drained(Exec(j, row, ls).0) :: Exec(j, row, ls).1.out == Exec(j, row, ls).0.out
  }

  /** A schedule is a run of the owner alone. */
  lemma {:induction false} ExecIsRun(o: nat, j: Job, row: Row, ls: seq<Local>)
    ensures var (k, r) := Exec(j, row, ls);
      Run(World(row, map[o := j]), Lift(o, ls)) == World(r, map[o := k])
    decreases |ls|
  {
    if ls != [] {
      var (k, r) := Try(j, row, ls[0]);
      assert map[o := j][o := k] == map[o := k];
      assert Lift(o, ls)[1..] == Lift(o, ls[1..]);
      assert Next(World(row, map[o := j]), Do(o, ls[0])) == World(r, map[o := k]);
      ExecIsRun(o, k, r, ls[1..]);
    }
  }

  function Lift(o: nat, ls: seq<Local>): (actions: seq<Action>)
    ensures |actions| == |ls|
  {
    if ls == [] then [] else [Do(o, ls[0])] + Lift(o, ls[1..])
  }

  predicate LateTerm(j: Job) {
    j.terms == []
    || (|j.terms| == 1
        && (j.terms[0].InProgress? || (j.terms[0].SentLate? && j.terms[0].late == j.out)
            || j.terms[0].GotLate? || j.terms[0].Capturing?))
  }

  /** What is still to write last is complete; or the row is complete already, or a complete late write
      is in flight, or the late body is still to decide and nothing will have switched the rescue off. */
  predicate Safe(j: Job, row: Row) {
    if WritesLast(j) then j.flushes[|j.flushes| - 1].snapshot == j.out
    else
      || row.out == j.out
      || (j.terms != [] && j.terms[0].SentLate?)
      || (j.terms != [] && j.terms[0].InProgress? && !j.rowLost && !HeadRejected(j))
  }

  predicate LateOk(j: Job, row: Row) { JobOk(j, row) && RowOk(row) && j.owned && LateTerm(j) }

  lemma SafeFlushStep(j: Job, row: Row, l: Local)
    requires LateOk(j, row) && Safe(j, row) && Enabled(j, l)
    requires l == FlushSend || l == FlushStore(Lands) || l == FlushReturn || l == DecideFlush
    ensures var (k, r) := Step(j, row, l); LateTerm(k) && k.owned && Safe(k, r)
  {
    var (k, r) := Step(j, row, l);
    assert {j.status} != OPEN by { assert Queued in OPEN && Queued !in {j.status}; }
    var n := |j.flushes|;
    match l
    case FlushSend =>
      assert |k.flushes| == n && k.flushes[n - 1].snapshot == j.flushes[n - 1].snapshot;
    case FlushStore(_) =>
      assert |k.flushes| == n && k.flushes[n - 1].snapshot == j.flushes[n - 1].snapshot;
    case FlushReturn =>
      assert k.flushes == j.flushes[1..];
      if n > 1 { assert k.flushes[0].phase.Idle? && k.flushes[n - 2] == j.flushes[n - 1]; }
    case DecideFlush =>
      assert !j.rowLost ==> k.flushes[n] == Flush(j.out, Idle) && |k.flushes| == n + 1;
  }

  lemma SafeTermStep(j: Job, row: Row, l: Local)
    requires LateOk(j, row) && Safe(j, row) && Enabled(j, l)
    requires l == TermCheck || l == TermStore(Lands) || l == TermReturn || l == TermCaptured
    ensures var (k, r) := Step(j, row, l); LateTerm(k) && k.owned && Safe(k, r)
  {
  }

  lemma {:induction false} SafeRun(j: Job, row: Row, ls: seq<Local>)
    requires LateOk(j, row) && Safe(j, row) && Schedule(ls)
    ensures var (k, r) := Exec(j, row, ls); Drained(k) ==> r.out == k.out
    decreases |ls|
  {
    if ls != [] {
      var l := ls[0];
      if Enabled(j, l) {
        StepKeeps(j, row, l);
        if l == TermCheck || l == TermStore(Lands) || l == TermReturn || l == TermCaptured {
          SafeTermStep(j, row, l);
        } else {
          SafeFlushStep(j, row, l);
        }
        var (k, r) := Step(j, row, l);
        SafeRun(k, r, ls[1..]);
      } else {
        SafeRun(j, row, ls[1..]);
      }
    }
  }

  /** The schedule that `Drain` follows. */
  function DrainSchedule(j: Job, row: Row): seq<Local>
    decreases |j.flushes|, DrainRank(j)
  {
    if j.flushes == [] then []
    else
      var l := NextFlushStep(j.flushes[0]);
      var (k, r) := Step(j, row, l);
      [l] + DrainSchedule(k, r)
  }

  lemma {:induction false} DrainScheduleDrains(j: Job, row: Row)
    ensures Schedule(DrainSchedule(j, row)) && Exec(j, row, DrainSchedule(j, row)) == Drain(j, row)
    decreases |j.flushes|, DrainRank(j)
  {
    if j.flushes != [] {
      var l := NextFlushStep(j.flushes[0]);
      var (k, r) := Step(j, row, l);
      DrainScheduleDrains(k, r);
      assert DrainSchedule(j, row)[1..] == DrainSchedule(k, r);
    }
  }

  lemma {:induction false} ExecConcat(j: Job, row: Row, a: seq<Local>, b: seq<Local>)
    ensures Exec(j, row, a + b) == var (k, r) := Exec(j, row, a); Exec(k, r, b)
    decreases |a|
  {
    if a == [] {
      assert a + b == b;
    } else {
      assert (a + b)[1..] == a[1..] + b;
      var (k, r) := Try(j, row, a[0]);
      ExecConcat(k, r, a[1..], b);
    }
  }

  const LATE_BODY: seq<Local> := [TermCheck, TermStore(Lands), TermReturn, TermCaptured]

  lemma RunLateBody(j: Job, row: Row)
    ensures var (a, r1) := Try(j, row, TermCheck);
      var (b, r2) := Try(a, r1, TermStore(Lands));
      var (c, r3) := Try(b, r2, TermReturn);
      Exec(j, row, LATE_BODY) == Try(c, r3, TermCaptured)
  {
    var rest := [TermStore(Lands), TermReturn, TermCaptured];
    assert LATE_BODY[1..] == rest && rest[1..] == [TermReturn, TermCaptured];
    assert rest[1..][1..] == [TermCaptured] && rest[1..][1..][1..] == [];
    var (a, r1) := Try(j, row, TermCheck);
    var (b, r2) := Try(a, r1, TermStore(Lands));
    var (c, r3) := Try(b, r2, TermReturn);
    assert Exec(c, r3, [TermCaptured]) == Try(c, r3, TermCaptured);
    assert Exec(b, r2, rest[1..]) == Exec(c, r3, [TermCaptured]);
    assert Exec(a, r1, rest) == Exec(b, r2, rest[1..]);
  }

  /** The rescue is off: the body finds nothing to write. */
  lemma LateBodyPasses(j: Job, row: Row)
    requires LateOk(j, row) && j.terms == [InProgress] && j.rowLost
    ensures Exec(j, row, LATE_BODY) == (j.(dirty := false, terms := []), row)
  {
    RunLateBody(j, row);
    var (a, r1) := Try(j, row, TermCheck);
    assert a == j.(dirty := false, terms := [Capturing]) && r1 == row;
    assert Try(a, row, TermStore(Lands)) == (a, row) && Try(a, row, TermReturn) == (a, row);
  }

  lemma StoreLands(d: Job, row: Row, out: Output)
    requires d.terms == [SentLate(out, {row.status})]
    ensures Try(d, row, TermStore(Lands)) == (d.(terms := [GotLate(Answer(true))]), row.(out := out))
  {
    assert d.terms[1..] == [] && [GotLate(Answer(true))] + [] == [GotLate(Answer(true))];
  }

  lemma ReturnNotes(d: Job, row: Row)
    requires d.terms == [GotLate(Answer(true))]
    ensures Try(d, row, TermReturn) == (d.(terms := [Capturing]), row)
  {
    assert d.terms[1..] == [] && [Capturing] + [] == [Capturing];
  }

  lemma CaptureEnds(d: Job, row: Row)
    requires d.terms == [Capturing]
    ensures Try(d, row, TermCaptured) == (d.(terms := []), row)
  {
    assert d.terms[1..] == [];
  }

  lemma CheckSends(j: Job, row: Row)
    requires LateOk(j, row) && j.terms == [InProgress] && !j.rowLost
    ensures Try(j, row, TermCheck) == (j.(dirty := false, terms := [SentLate(j.out, {row.status})]), row)
  {
    var sent := SentLate(j.out, {row.status});
    assert j.terms[1..] == [] && [sent] + [] == [sent];
  }

  /** The rescue is on: the body writes all of the output. */
  lemma LateBodyWrites(j: Job, row: Row)
    requires LateOk(j, row) && j.terms == [InProgress] && !j.rowLost
    ensures Exec(j, row, LATE_BODY) == (j.(dirty := false, terms := []), row.(out := j.out))
  {
    var d := j.(dirty := false, terms := [SentLate(j.out, {row.status})]);
    var r := row.(out := j.out);
    RunLateBody(j, row);
    CheckSends(j, row);
    StoreLands(d, row, j.out);
    ReturnNotes(d.(terms := [GotLate(Answer(true))]), r);
    CaptureEnds(d.(terms := [Capturing]), r);
  }

  /** The late body without a flush step in between. */
  lemma LateBodyRuns(j: Job, row: Row)
    requires LateOk(j, row) && j.terms == [InProgress]
    ensures var (k, r) := Exec(j, row, LATE_BODY);
      && JobOk(k, r) && RowOk(r) && k == j.(dirty := false, terms := [])
      && r == if j.rowLost then row else row.(out := j.out)
  {
    if j.rowLost { LateBodyPasses(j, row); } else { LateBodyWrites(j, row); }
  }

  /** A schedule that loses text: the late body before a stale flush, or after a rejection. */
  lemma LosingSchedule(j: Job, row: Row) returns (ls: seq<Local>)
    requires LateOk(j, row) && j.terms == [InProgress] && !Safe(j, row)
    ensures Schedule(ls) && Drained(Exec(j, row, ls).0) && Exec(j, row, ls).1.out != Exec(j, row, ls).0.out
  {
    if WritesLast(j) {
      LateBodyRuns(j, row);
      var (k, r) := Exec(j, row, LATE_BODY);
      DrainScheduleDrains(k, r);
      DrainedOutput(k, r);
      DrainKeeps(k, r);
      ls := LATE_BODY + DrainSchedule(k, r);
      ExecConcat(j, row, LATE_BODY, DrainSchedule(k, r));
    } else {
      DrainScheduleDrains(j, row);
      DrainedOutput(j, row);
      DrainKeeps(j, row);
      RescueSwitchedOffIff(j, row);
      var (k, r) := Drain(j, row);
      LateBodyRuns(k, r);
      ls := DrainSchedule(j, row) + LATE_BODY;
      ExecConcat(j, row, DrainSchedule(j, row), LATE_BODY);
    }
  }

  /** The exact condition for output that arrives after the terminal write, over every interleaving.
      When the late body starts, all of the output survives every schedule of the two chains iff the flush
      that writes last carries all of it; or, when none will write, the row has all of it already, or
      the rescue is on and no answer still to come can switch it off. */
  lemma AlwaysCompleteIff(j: Job, row: Row)
    requires JobOk(j, row) && RowOk(row) && j.owned && j.closed && j.terms == [InProgress]
    ensures AlwaysComplete(j, row) <==>
      if WritesLast(j) then j.flushes[|j.flushes| - 1].snapshot == j.out
      else row.out == j.out || (!j.rowLost && !HeadRejected(j))
  {
    if Safe(j, row) {
      forall ls | Schedule(ls) && Drained(Exec(j, row, ls).0)
        ensures Exec(j, row, ls).1.out == Exec(j, row, ls).0.out
      {
        SafeRun(j, row, ls);
      }
    } else {
      var ls := LosingSchedule(j, row);
    }
  }

  /** The same at every point of every run of one owner at which a late body starts. */
  lemma LateOutputSurvivesIff(o: nat, actions: seq<Action>)
    requires var w := Run(Start({o}), actions);
      o in w.jobs && w.jobs[o].owned && w.jobs[o].closed && w.jobs[o].terms == [InProgress]
    ensures var w := Run(Start({o}), actions); var j := w.jobs[o];
      (forall ls | Schedule(ls) :: var v := Run(w, Lift(o, ls));
         o in v.jobs && (Drained(v.jobs[o]) ==> v.row.out == v.jobs[o].out))
      <==> (if WritesLast(j) then j.flushes[|j.flushes| - 1].snapshot == j.out
            else w.row.out == j.out || (!j.rowLost && !HeadRejected(j)))
  {
    var w := Run(Start({o}), actions);
    var j := w.jobs[o];
    StartOk({o});
    RunKeeps(Start({o}), actions);
    assert w.jobs == map[o := j];
    forall ls ensures var (k, r) := Exec(j, w.row, ls); Run(w, Lift(o, ls)) == World(r, map[o := k]) {
      ExecIsRun(o, j, w.row, ls);
    }
    AlwaysCompleteIff(j, w.row);
  }

  // ------------------------------------------------------------------ whose write a rejection is about

  /** Some step of instance i was the admitted terminal write. */
  predicate Wrote(w: World, actions: seq<Action>, i: nat)
    decreases |actions|
  {
    actions != [] &&
    ((actions[0].Do? && actions[0].instance == i && Next(w, actions[0]).row.admissions > w.row.admissions)
     || Wrote(Next(w, actions[0]), actions[1..], i))
  }

  /** ... and the answer to that write was lost. */
  predicate LostOwn(w: World, actions: seq<Action>, i: nat)
    decreases |actions|
  {
    actions != [] &&
    ((actions[0] == Do(i, TermStore(AnswerLost)) && Next(w, actions[0]).row.admissions > w.row.admissions)
     || LostOwn(Next(w, actions[0]), actions[1..], i))
  }

  /** An instance owns the row, or has the answer in hand, exactly when it made the admitted write and
      did not lose the answer to it. */
  predicate KnowsOwn(j: Job, row: Row, wrote: bool, lost: bool) {
    && (j.owned || (j.terms != [] && j.terms[0] == GotComplete(Answer(true))) <==> wrote && !lost)
    && (lost ==> wrote)
    && (wrote ==> Settled(row.status))
  }

  lemma KnowsOwnStep(j: Job, row: Row, l: Local, wrote: bool, lost: bool)
    requires JobOk(j, row) && RowOk(row) && Enabled(j, l) && KnowsOwn(j, row, wrote, lost)
    ensures var (k, r) := Step(j, row, l); var admitted := r.admissions > row.admissions;
      KnowsOwn(k, r, wrote || admitted, lost || (admitted && l == TermStore(AnswerLost)))
  {
    if l.TermStore? { KnowsOwnStore(j, row, l.fate, wrote, lost); } else { KnowsOwnOther(j, row, l, wrote, lost); }
  }

  lemma KnowsOwnStore(j: Job, row: Row, fate: Fate, wrote: bool, lost: bool)
    requires JobOk(j, row) && RowOk(row) && Enabled(j, TermStore(fate)) && KnowsOwn(j, row, wrote, lost)
    ensures var (k, r) := Step(j, row, TermStore(fate)); var admitted := r.admissions > row.admissions;
      KnowsOwn(k, r, wrote || admitted, lost || (admitted && fate == AnswerLost))
  {
  }

  lemma KnowsOwnOther(j: Job, row: Row, l: Local, wrote: bool, lost: bool)
    requires JobOk(j, row) && Enabled(j, l) && KnowsOwn(j, row, wrote, lost) && !l.TermStore?
    ensures var (k, r) := Step(j, row, l); KnowsOwn(k, r, wrote, lost) && r.admissions == row.admissions
  {
  }

  lemma KnowsOwnNext(w: World, a: Action, i: nat, wrote: bool, lost: bool)
    requires WorldOk(w) && i in w.jobs && KnowsOwn(w.jobs[i], w.row, wrote, lost)
    ensures var v := Next(w, a); var mine := a.Do? && a.instance == i && v.row.admissions > w.row.admissions;
      WorldOk(v) && i in v.jobs
      && KnowsOwn(v.jobs[i], v.row, wrote || mine, lost || (mine && a.local == TermStore(AnswerLost)))
  {
    NextKeeps(w, a);
    if a.Do? && a.instance == i {
      if Enabled(w.jobs[i], a.local) { KnowsOwnStep(w.jobs[i], w.row, a.local, wrote, lost); }
    } else {
      assert Next(w, a).jobs[i] == w.jobs[i];
    }
  }

  lemma {:induction false} KnowsOwnRun(w: World, actions: seq<Action>, i: nat, wrote: bool, lost: bool)
    requires WorldOk(w) && i in w.jobs && KnowsOwn(w.jobs[i], w.row, wrote, lost)
    ensures var v := Run(w, actions);
      i in v.jobs && KnowsOwn(v.jobs[i], v.row, wrote || Wrote(w, actions, i), lost || LostOwn(w, actions, i))
    decreases |actions|
  {
    if actions != [] {
      var a, v := actions[0], Next(w, actions[0]);
      var mine := a.Do? && a.instance == i && v.row.admissions > w.row.admissions;
      KnowsOwnNext(w, a, i, wrote, lost);
      KnowsOwnRun(v, actions[1..], i, wrote || mine, lost || (mine && a.local == TermStore(AnswerLost)));
    }
  }

  lemma WroteNext(w: World, a: Action, i: nat, wrote: bool)
    requires WorldOk(w) && i in w.jobs && (wrote ==> Settled(w.row.status) && w.row.status == w.jobs[i].status)
    ensures var v := Next(w, a);
      WorldOk(v) && i in v.jobs
      && (wrote || (a.Do? && a.instance == i && v.row.admissions > w.row.admissions) ==>
            Settled(v.row.status) && v.row.status == v.jobs[i].status)
  {
    NextKeeps(w, a);
    if a.Do? && a.instance == i && Enabled(w.jobs[i], a.local) {
      StepMoves(w.jobs[i], w.row, a.local);
      if a.local.TermStore? { assert TermOk(w.jobs[i], w.row, w.jobs[i].terms[0]); }
    }
  }

  lemma {:induction false} WroteRun(w: World, actions: seq<Action>, i: nat, wrote: bool)
    requires WorldOk(w) && i in w.jobs && (wrote ==> Settled(w.row.status) && w.row.status == w.jobs[i].status)
    ensures var v := Run(w, actions);
      i in v.jobs && (wrote || Wrote(w, actions, i) ==> Settled(v.row.status) && v.row.status == v.jobs[i].status)
    decreases |actions|
  {
    if actions != [] {
      var a, v := actions[0], Next(w, actions[0]);
      WroteNext(w, a, i, wrote);
      WroteRun(v, actions[1..], i, wrote || (a.Do? && a.instance == i && v.row.admissions > w.row.admissions));
    }
  }

  /** In every run of any instances, the row ends with the status that ended the job at the instance
      whose write was admitted. */
  lemma WrittenStatus(instances: set<nat>, actions: seq<Action>, i: nat)
    requires i in instances && Wrote(Start(instances), actions, i)
    ensures FirstEnd(actions, i) == Some(Run(Start(instances), actions).row.status)
  {
    StartOk(instances);
    WroteRun(Start(instances), actions, i, false);
    JobIsWhatItWasTold(instances, actions, i);
  }

  /** The exact condition for a rejection, in every run of any number of instances: an instance whose
      terminal write has been answered was rejected iff the write admitted to the row was not its own,
      or was its own and lost its answer.  One that lost that answer never owns its row again. */
  lemma RejectedIff(instances: set<nat>, actions: seq<Action>, i: nat)
    requires i in instances
    ensures var w := Run(Start(instances), actions);
      && i in w.jobs
      && (w.jobs[i].persisted ==>
            (Rejected(w.jobs[i]) <==> !Wrote(Start(instances), actions, i) || LostOwn(Start(instances), actions, i)))
      && (LostOwn(Start(instances), actions, i) ==> !w.jobs[i].owned)
  {
    StartOk(instances);
    RunKeeps(Start(instances), actions);
    KnowsOwnRun(Start(instances), actions, i, false, false);
  }

  /** So a rejection is about the instance's own write exactly when the answer to that write was lost. */
  lemma RejectedForItsOwnIff(instances: set<nat>, actions: seq<Action>, i: nat)
    requires var w := Run(Start(instances), actions); i in w.jobs && Rejected(w.jobs[i])
    ensures Wrote(Start(instances), actions, i) <==> LostOwn(Start(instances), actions, i)
  {
    StartOk(instances);
    RunKeeps(Start(instances), actions);
    KnowsOwnRun(Start(instances), actions, i, false, false);
  }

  /** A cancelled job whose terminal write has been sent. */
  lemma CanceledAndSent() returns (p: seq<Action>, j: Job, row: Row)
    ensures Run(Start({0}), p) == World(row, map[0 := j])
    ensures row == Row(Queued, Output("", ""), 0)
    ensures j == FRESH_JOB.(status := Canceled, terms := [SentComplete(Canceled, Output("", ""))])
  {
    p, j, row := Fresh();
    p, j, row := Extend(p, j, row, Finish(Canceled, ""));
    assert j.terms == [Waiting];
    p, j, row := Extend(p, j, row, TermBegin);
    p, j, row := Extend(p, j, row, TermCheck);
    assert j.terms == [SentComplete(Canceled, Output("", ""))];
  }

  /** The same job once that write was admitted and its answer lost. */
  lemma CanceledAndUnaware() returns (p: seq<Action>, j: Job, row: Row)
    ensures Run(Start({0}), p) == World(row, map[0 := j])
    ensures row == Row(Canceled, Output("", ""), 1)
    ensures j == FRESH_JOB.(status := Canceled)
  {
    p, j, row := CanceledAndSent();
    p, j, row := Extend(p, j, row, TermStore(AnswerLost));
    assert j.terms == [GotComplete(Failure)];
    p, j, row := Extend(p, j, row, TermReturn);
    assert j.terms == [];
  }

  /** With an answer lost, the retry of a job's own admitted write is rejected, and the job takes its row
      for another writer's. */
  lemma RejectedForItsOwn()
    ensures exists actions :: var v := Run(Start({0}), actions);
      0 in v.jobs && Rejected(v.jobs[0]) && v.row.admissions == 1 && v.row.status == v.jobs[0].status
  {
    var p, j, row := CanceledAndUnaware();
    p, j, row := Extend(p, j, row, Persist);
    assert j.terms == [Waiting];
    p, j, row := Extend(p, j, row, TermBegin);
    p, j, row := Extend(p, j, row, TermCheck);
    assert j.terms == [SentComplete(Canceled, Output("", ""))];
    p, j, row := Extend(p, j, row, TermStore(Lands));
    assert j.terms == [GotComplete(Answer(false))];
    p, j, row := Extend(p, j, row, TermReturn);
    var v := Run(Start({0}), p);
    assert v.jobs[0] == j && Rejected(j);
  }

  // ------------------------------------------------------------------ a rescue that is off

  /** Nothing of this instance is on its way to the row. */
  predicate NothingUnderway(j: Job) {
    j.flushes == [] && (j.terms == [] || (|j.terms| == 1 && (j.terms[0].InProgress? || j.terms[0].Capturing?)))
  }

  lemma SilentStep(j: Job, row: Row, l: Local)
    requires j.owned && j.rowLost && NothingUnderway(j) && j.persisted && Enabled(j, l) && ChainStep(l)
    ensures var (k, r) := Step(j, row, l); r == row && k.owned && k.rowLost && k.persisted && NothingUnderway(k)
  {
  }

  /** Once the rescue is off and nothing is on its way, no schedule of the two chains writes again: no
      flush is even decided. */
  lemma {:induction false} RescueOffIsSilent(j: Job, row: Row, ls: seq<Local>)
    requires j.owned && j.rowLost && NothingUnderway(j) && j.persisted && Schedule(ls)
    ensures Exec(j, row, ls).1 == row
    decreases |ls|
  {
    if ls != [] {
      if Enabled(j, ls[0]) { SilentStep(j, row, ls[0]); }
      var (k, r) := Try(j, row, ls[0]);
      RescueOffIsSilent(k, r, ls[1..]);
    }
  }

  /** A decision about output leaves nothing undecided, and a terminal write asked for too early ends
      without a trace. */
  lemma DecisionsEnd(j: Job, row: Row)
    ensures Enabled(j, DecideFlush) ==> !Step(j, row, DecideFlush).0.dirty
    ensures Enabled(j, TermBegin) && !Settled(j.status) ==> Step(j, row, TermBegin) == (j.(terms := j.terms[1..]), row)
  {
  }
}
