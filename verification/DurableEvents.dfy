/** What an instance holds of a job, told by the events alone: which of them ended it, and the text
    that arrived.  And what an unsettled row says, told by who swept or started it. */
module DurableEvents {
  import opened Options
  import opened DurableRow

  lemma {:induction false} RunSnoc(w: World, actions: seq<Action>, a: Action)
    ensures Run(w, actions + [a]) == Next(Run(w, actions), a)
    decreases |actions|
  {
    if actions == [] {
      assert [a][1..] == [];
    } else {
      assert (actions + [a])[1..] == actions[1..] + [a];
      RunSnoc(Next(w, actions[0]), actions[1..], a);
    }
  }

  lemma RunLast(w: World, actions: seq<Action>)
    requires actions != []
    ensures Run(w, actions) == Next(Run(w, actions[..|actions| - 1]), actions[|actions| - 1])
  {
    assert actions == actions[..|actions| - 1] + [actions[|actions| - 1]];
    RunSnoc(w, actions[..|actions| - 1], actions[|actions| - 1]);
  }

  // ------------------------------------------------------------------ the events of one instance

  /** The status of instance i's first ending: a cancellation, a timeout, an overflow or a close. */
  function FirstEnd(actions: seq<Action>, i: nat): Option<Status> {
    if actions == [] then None
    else
      var before, a := FirstEnd(actions[..|actions| - 1], i), actions[|actions| - 1];
      if before.Some? || a.Sweep? || a.instance != i then before
      else if a.local.Finish? && Settled(a.local.status) then Some(a.local.status)
      else if a.local.Close? && Settled(a.local.status) then Some(a.local.status)
      else None
  }

  /** Instance i has seen the job close. */
  predicate SawClose(actions: seq<Action>, i: nat) {
    exists k :: 0 <= k < |actions| && actions[k].Do? && actions[k].instance == i
                && actions[k].local.Close? && Settled(actions[k].local.status)
  }

  /** The output at instance i: the chunks up to the close, and what an ending puts in: its error text in
      place of stderr, and for a close that ends the job the rest of its stdout. */
  function Arrived(actions: seq<Action>, i: nat): Output {
    if actions == [] then Output("", "")
    else
      var before := actions[..|actions| - 1];
      var out, a := Arrived(before, i), actions[|actions| - 1];
      if a.Sweep? || a.instance != i || SawClose(before, i) then out
      else
        match a.local
        case Chunk(o, e) => Output(out.stdout + o, out.stderr + e)
        case Finish(s, e) => if FirstEnd(before, i).None? && Settled(s) then out.(stderr := e) else out
        case Close(s, o, e) =>
          if FirstEnd(before, i).None? && Settled(s) then Output(out.stdout + o, e) else out
        case _ => out
  }

  function StatusOf(actions: seq<Action>, i: nat): Status {
    match FirstEnd(actions, i)
    case Some(s) => s
    case None => if Do(i, Launch) in actions then Running else Queued
  }

  lemma CloseSnoc(before: seq<Action>, a: Action, i: nat)
    ensures SawClose(before + [a], i)
       <==> SawClose(before, i) || (a.Do? && a.instance == i && a.local.Close? && Settled(a.local.status))
  {
    var next := before + [a];
    assert next[|before|] == a;
    if SawClose(before, i) {
      var k :| 0 <= k < |before| && before[k].Do? && before[k].instance == i
               && before[k].local.Close? && Settled(before[k].local.status);
      assert next[k] == before[k];
    }
    if SawClose(next, i) {
      var k :| 0 <= k < |next| && next[k].Do? && next[k].instance == i
               && next[k].local.Close? && Settled(next[k].local.status);
      assert k < |before| ==> before[k] == next[k];
    }
  }

  /** The job as the events tell it. */
  predicate Told(j: Job, actions: seq<Action>, i: nat) {
    && j.status == StatusOf(actions, i)
    && (Settled(j.status) <==> FirstEnd(actions, i).Some?)
    && (j.closed <==> SawClose(actions, i))
    && j.out == Arrived(actions, i)
  }

  lemma ClosedHasEnded(actions: seq<Action>, i: nat)
    requires SawClose(actions, i)
    ensures FirstEnd(actions, i).Some?
    decreases |actions|
  {
    var before := actions[..|actions| - 1];
    assert actions == before + [actions[|actions| - 1]];
    CloseSnoc(before, actions[|actions| - 1], i);
    if SawClose(before, i) { ClosedHasEnded(before, i); }
  }

  /** What one step of the instance does to what the events tell of. */
  predicate Moves(j: Job, l: Local, k: Job) {
    match l
    case Launch => k == if j.status == Queued then j.(status := Running) else j
    case Chunk(o, e) =>
      k.status == j.status && k.closed == j.closed
      && k.out == if j.closed then j.out else Output(j.out.stdout + o, j.out.stderr + e)
    case Finish(s, e) =>
      var ends := !Settled(j.status) && Settled(s);
      k.closed == j.closed && k.status == (if ends then s else j.status)
      && k.out == if ends then j.out.(stderr := e) else j.out
    case Close(s, o, e) =>
      var closes := !j.closed && Settled(s);
      var ends := closes && !Settled(j.status);
      k.closed == (j.closed || closes) && k.status == (if ends then s else j.status)
      && k.out == if ends then Output(j.out.stdout + o, e) else j.out
    case _ => k.status == j.status && k.closed == j.closed && k.out == j.out
  }

  lemma ChainsMoveNothing(j: Job, row: Row, l: Local)
    requires Enabled(j, l) && !l.Launch? && !l.Chunk? && !l.Finish? && !l.Close?
    ensures Moves(j, l, Step(j, row, l).0)
  {
  }

  lemma StepMoves(j: Job, row: Row, l: Local)
    ensures Moves(j, l, if Enabled(j, l) then Step(j, row, l).0 else j)
  {
    if Enabled(j, l) && !l.Launch? && !l.Chunk? && !l.Finish? && !l.Close? { ChainsMoveNothing(j, row, l); }
  }

  lemma ToldByOwn(j: Job, k: Job, l: Local, before: seq<Action>, i: nat)
    requires Told(j, before, i) && Moves(j, l, k)
    ensures Told(k, before + [Do(i, l)], i)
  {
    var next := before + [Do(i, l)];
    assert next[..|next| - 1] == before;
    CloseSnoc(before, Do(i, l), i);
    if SawClose(before, i) { ClosedHasEnded(before, i); }
    assert Do(i, Launch) in next <==> Do(i, Launch) in before || l == Launch;
    match l
    case Launch => case Chunk(_, _) => case Finish(_, _) => case Close(_, _, _) =>
    case _ => assert Arrived(next, i) == Arrived(before, i);
  }

  lemma ToldByOthers(j: Job, before: seq<Action>, a: Action, i: nat)
    requires Told(j, before, i) && (a.Sweep? || a.instance != i)
    ensures Told(j, before + [a], i)
  {
    var next := before + [a];
    assert next[..|next| - 1] == before;
    CloseSnoc(before, a, i);
  }

  /** In every run of any instances, a job's status is that of its first ending, or says whether it was
      launched; and its output is what arrived. */
  lemma {:induction false} JobIsWhatItWasTold(instances: set<nat>, actions: seq<Action>, i: nat)
    requires i in instances
    ensures i in Run(Start(instances), actions).jobs && Told(Run(Start(instances), actions).jobs[i], actions, i)
    decreases |actions|
  {
    if actions != [] {
      var before, a := actions[..|actions| - 1], actions[|actions| - 1];
      var w := Run(Start(instances), before);
      assert actions == before + [a];
      RunLast(Start(instances), actions);
      JobIsWhatItWasTold(instances, before, i);
      if a.Do? && a.instance == i {
        StepMoves(w.jobs[i], w.row, a.local);
        ToldByOwn(w.jobs[i], Run(Start(instances), actions).jobs[i], a.local, before, i);
      } else {
        ToldByOthers(w.jobs[i], before, a, i);
      }
    }
  }

  // ------------------------------------------------------------------ the row before it is settled

  predicate Started(actions: seq<Action>, instances: set<nat>) {
    exists k :: 0 <= k < |actions| && actions[k].Do? && actions[k].instance in instances
                && actions[k].local.MarkRunning?
  }

  lemma StartedSnoc(before: seq<Action>, a: Action, instances: set<nat>)
    ensures Started(before + [a], instances)
       <==> Started(before, instances) || (a.Do? && a.instance in instances && a.local.MarkRunning?)
  {
    var next := before + [a];
    assert next[|before|] == a;
    if Started(before, instances) {
      var k :| 0 <= k < |before| && before[k].Do? && before[k].instance in instances && before[k].local.MarkRunning?;
      assert next[k] == before[k];
    }
    if Started(next, instances) {
      var k :| 0 <= k < |next| && next[k].Do? && next[k].instance in instances && next[k].local.MarkRunning?;
      assert k < |before| ==> before[k] == next[k];
    }
  }

  /** What one action does to an unsettled row that stays unsettled. */
  lemma UnsettledStep(w: World, a: Action)
    requires WorldOk(w) && !Settled(Next(w, a).row.status)
    ensures Next(w, a).row.status ==
      if a.Sweep? then Orphaned
      else if a.instance in w.jobs && a.local.MarkRunning? && w.row.status == Queued then Running
      else w.row.status
  {
  }

  /** An unsettled row is orphaned iff a sweep came by, and otherwise running iff somebody marked it. */
  lemma {:induction false} UnsettledRowIs(instances: set<nat>, actions: seq<Action>)
    ensures var row := Run(Start(instances), actions).row;
      !Settled(row.status) ==>
        row.status == if Sweep in actions then Orphaned else if Started(actions, instances) then Running else Queued
    decreases |actions|
  {
    if actions != [] {
      var before, a := actions[..|actions| - 1], actions[|actions| - 1];
      var w := Run(Start(instances), before);
      assert actions == before + [a];
      RunLast(Start(instances), actions);
      UnsettledRowIs(instances, before);
      StartedSnoc(before, a, instances);
      StartOk(instances);
      RunKeeps(Start(instances), before);
      NextKeeps(w, a);
      if !Settled(Next(w, a).row.status) { UnsettledStep(w, a); }
    }
  }
}
