/** Timed leases on durable job rows: when a sweep may orphan a job, and when it must. */
module LeaseTiming {
  import opened Options

  type Id = nat
  type Instance = nat
  type Host = nat

  datatype Config = Config(heartbeat: nat, leaseTtl: nat, httpGrace: nat, gc: nat)

  /** The inequalities configuration loading enforces, on the positive integers the schema admits. */
  predicate Accepts(c: Config) {
    && c.heartbeat > 0 && c.leaseTtl > 0 && c.httpGrace > 0 && c.gc > 0
    && c.leaseTtl >= 2 * c.heartbeat && c.httpGrace >= c.leaseTtl && c.gc >= c.leaseTtl
  }

  datatype Status = Queued | Running | Orphaned | Ended
  datatype Transport = Process | Http

  datatype Origin = Origin(owner: Instance, host: Host, transport: Transport, startedAt: int)

  /** History kept beside the row: when its lease was last written, and who has given it pid grace. */
  datatype History = History(stampedAt: int, gracedBy: set<Instance>)

  datatype Row = Row(status: Status, origin: Origin, pid: Option<int>, lease: Option<int>, past: History)

  /** `beats` is each instance's last successful heartbeat; `confirmed` what each sweep in progress has
      found alive, and is about to exclude. */
  datatype State = State(now: int, jobs: map<Id, Row>, beats: map<Instance, int>, confirmed: map<Instance, set<Id>>)

  datatype Event =
    | Pass(time: nat)
    | Heartbeat(i: Instance)
    | Admit(id: Id, origin: Origin)
    | MarkRunning(id: Id, pid: Option<int>)
    | Finish(id: Id)
    | Select(i: Instance, host: Host, alive: set<int>)   // the candidate read and the pid probe
    | Recover(i: Instance)                               // recoverStaleJobs
    | Abandon(i: Instance)                               // the sweep ends without it

  const START := State(0, map[], map[], map[])

  predicate Open(r: Row) { r.status == Queued || r.status == Running }

  function Stamp(r: Row, now: int, ttl: nat): Row { r.(lease := Some(now + ttl), past := r.past.(stampedAt := now)) }

  predicate Expired(r: Row, now: int) { r.lease.None? || r.lease.value < now }

  /** A stale candidate whose pid the selecting instance can probe, and finds alive. */
  predicate Confirms(r: Row, host: Host, alive: set<int>, now: int) {
    && Open(r) && r.origin.transport == Process && Expired(r, now)
    && r.pid.Some? && r.origin.host == host && r.pid.value in alive
  }

  predicate Sweepable(r: Row, now: int, c: Config) {
    Open(r) && Expired(r, now) && (r.origin.transport == Process || r.origin.startedAt < now - c.httpGrace)
  }

  /** recoverStaleJobs on one row: renew a confirmed row and forget its pid, orphan an expired one. */
  function Swept(r: Row, i: Instance, confirmed: bool, now: int, c: Config): Row {
    if confirmed then
      if Open(r) then
        var s := Stamp(r, now, c.leaseTtl);
        s.(pid := None, past := s.past.(gracedBy := s.past.gracedBy + {i}))
      else r
    else if Sweepable(r, now, c) then r.(status := Orphaned, lease := None)
    else r
  }

  function Beaten(r: Row, i: Instance, now: int, c: Config): Row {
    if r.origin.owner == i && Open(r) then Stamp(r, now, c.leaseTtl) else r
  }

  /** Events that do not apply change nothing: a taken id, an instance that has not beaten yet, a row
      that is not queued, a second sweep by the same instance. */
  function Apply(s: State, e: Event, c: Config): State {
    match e
    case Pass(time) => s.(now := s.now + time)
    case Heartbeat(i) =>
      s.(jobs := map id | id in s.jobs :: Beaten(s.jobs[id], i, s.now, c), beats := s.beats[i := s.now])
    case Admit(id, origin) =>
      if id in s.jobs || origin.owner !in s.beats then s
      else s.(jobs := s.jobs[id := Row(Queued, origin, None, Some(s.now + c.leaseTtl), History(s.now, {}))])
    case MarkRunning(id, pid) =>
      if id !in s.jobs || s.jobs[id].status != Queued then s
      else s.(jobs := s.jobs[id := Stamp(s.jobs[id], s.now, c.leaseTtl).(status := Running, pid := pid)])
    case Finish(id) =>
      if id !in s.jobs || s.jobs[id].status == Ended then s
      else s.(jobs := s.jobs[id := s.jobs[id].(status := Ended, lease := None)])
    case Select(i, host, alive) =>
      if i in s.confirmed then s
      else s.(confirmed := s.confirmed[i := set id | id in s.jobs && Confirms(s.jobs[id], host, alive, s.now)])
    case Recover(i) =>
      if i !in s.confirmed then s
      else
        s.(jobs := map id | id in s.jobs :: Swept(s.jobs[id], i, id in s.confirmed[i], s.now, c),
           confirmed := s.confirmed - {i})
    case Abandon(i) => s.(confirmed := s.confirmed - {i})
  }

  function Run(s: State, es: seq<Event>, c: Config): State
    decreases |es|
  {
    if es == [] then s else Run(Apply(s, es[0], c), es[1..], c)
  }

  // ------------------------------------------------------------------ invariants

  /** A lease is the last stamp plus one TTL, never older than the owner's last heartbeat; a pid has
      not been used for grace, and a row an instance is about to grace has not had its grace before. */
  predicate RowOk(s: State, id: Id, c: Config)
    requires id in s.jobs
  {
    var r := s.jobs[id];
    && r.past.stampedAt <= s.now
    && r.origin.owner in s.beats
    && (Open(r) ==> r.lease == Some(r.past.stampedAt + c.leaseTtl) && s.beats[r.origin.owner] <= r.past.stampedAt)
    && (r.pid.Some? ==> r.past.gracedBy == {})
    && (r.status == Queued ==> r.past.gracedBy == {} && r.pid.None?)
    && (forall i | i in s.confirmed && id in s.confirmed[i] :: i !in r.past.gracedBy && r.status != Queued
          && (Open(r) ==> (r.pid.Some? <==> r.past.gracedBy == {})))
  }

  predicate Inv(s: State, c: Config) {
    && (forall i | i in s.beats :: s.beats[i] <= s.now)
    && (forall id | id in s.jobs :: RowOk(s, id, c))
    && (forall i, id | i in s.confirmed && id in s.confirmed[i] :: id in s.jobs)
  }

  lemma RowKeeps(s: State, e: Event, id: Id, c: Config)
    requires Inv(s, c) && id in s.jobs
    ensures var t := Apply(s, e, c); id in t.jobs && RowOk(t, id, c)
  {
    assert RowOk(s, id, c);
    match e
    case Heartbeat(i) => case Recover(i) => case Select(i, host, alive) =>
    case Admit(x, origin) => case MarkRunning(x, pid) => case Finish(x) =>
    case Pass(time) => case Abandon(i) =>
  }

  lemma ApplyKeeps(s: State, e: Event, c: Config)
    requires Inv(s, c)
    ensures Inv(Apply(s, e, c), c)
  {
    var t := Apply(s, e, c);
    forall id | id in t.jobs ensures RowOk(t, id, c) {
      if id in s.jobs { RowKeeps(s, e, id, c); }
    }
  }

  lemma {:induction false} RunKeeps(s: State, es: seq<Event>, c: Config)
    requires Inv(s, c)
    ensures Inv(Run(s, es, c), c)
    decreases |es|
  {
    if es != [] {
      ApplyKeeps(s, es[0], c);
      RunKeeps(Apply(s, es[0], c), es[1..], c);
    }
  }

  // ------------------------------------------------------------------ live instances are safe

  /** Instance i's last heartbeat is at most two intervals old. */
  predicate Punctual(s: State, i: Instance, c: Config) { i in s.beats ==> s.now - s.beats[i] <= 2 * c.heartbeat }

  /** ... at every moment of the run. */
  predicate PunctualRun(s: State, es: seq<Event>, i: Instance, c: Config)
    decreases |es|
  {
    Punctual(s, i, c) && (es == [] || PunctualRun(Apply(s, es[0], c), es[1..], i, c))
  }

  predicate NoneOrphaned(s: State, i: Instance) {
    forall id | id in s.jobs && s.jobs[id].origin.owner == i :: s.jobs[id].status != Orphaned
  }

  lemma {:induction false} LiveStaysOwned(s: State, es: seq<Event>, i: Instance, c: Config)
    requires c.leaseTtl >= 2 * c.heartbeat && Inv(s, c) && NoneOrphaned(s, i) && PunctualRun(s, es, i, c)
    ensures NoneOrphaned(Run(s, es, c), i)
    decreases |es|
  {
    if es != [] {
      ApplyKeeps(s, es[0], c);
      LiveStep(s, es[0], i, c);
      LiveStaysOwned(Apply(s, es[0], c), es[1..], i, c);
    }
  }

  lemma LiveStep(s: State, e: Event, i: Instance, c: Config)
    requires c.leaseTtl >= 2 * c.heartbeat && Inv(s, c) && NoneOrphaned(s, i) && Punctual(s, i, c)
    ensures NoneOrphaned(Apply(s, e, c), i)
  {
    var t := Apply(s, e, c);
    forall id | id in t.jobs && t.jobs[id].origin.owner == i ensures t.jobs[id].status != Orphaned {
      assert id in s.jobs ==> RowOk(s, id, c);
    }
  }

  /** A configuration protects instances that are never silent for more than two intervals: no sweep
      by anyone, in any run, orphans a job of theirs. */
  ghost predicate Protects(c: Config) {
    forall es: seq<Event>, i: Instance | PunctualRun(START, es, i, c) :: NoneOrphaned(Run(START, es, c), i)
  }

  /** The schema's lease inequality is exactly what that takes. */
  lemma TwoBeatsExactly(c: Config)
    ensures Protects(c) <==> c.leaseTtl >= 2 * c.heartbeat
  {
    if c.leaseTtl >= 2 * c.heartbeat {
      forall es: seq<Event>, i: Instance | PunctualRun(START, es, i, c) ensures NoneOrphaned(Run(START, es, c), i) {
        LiveStaysOwned(START, es, i, c);
      }
    } else {
      LateHeartbeatLosesJob(c);
    }
  }

  lemma AcceptedProtects(c: Config)
    requires Accepts(c)
    ensures Protects(c)
  {
    TwoBeatsExactly(c);
  }

  /** What validation asks for: positive settings that protect live instances, an http grace that is no
      shorter than a lease, and instance rows that outlive it. */
  lemma AcceptedIff(c: Config)
    ensures Accepts(c) <==> c.heartbeat >= 1 && Protects(c) && c.httpGrace >= c.leaseTtl && c.gc >= c.leaseTtl
  {
    TwoBeatsExactly(c);
  }

  lemma LateHeartbeatLosesJob(c: Config)
    requires c.leaseTtl < 2 * c.heartbeat
    ensures !Protects(c)
  {
    var o := Origin(0, 0, Process, 0);
    var es := [Heartbeat(0), Admit(0, o), Pass(2 * c.heartbeat), Select(1, 1, {}), Recover(1)];
    var s1 := Apply(START, es[0], c);
    var s2 := Apply(s1, es[1], c);
    var s3 := Apply(s2, es[2], c);
    var s4 := Apply(s3, es[3], c);
    var s5 := Apply(s4, es[4], c);
    assert es[1..][1..] == es[2..] && es[2..][1..] == es[3..] && es[3..][1..] == es[4..] && es[4..][1..] == [];
    assert s5 == Run(s4, es[4..], c) == Run(s3, es[3..], c) == Run(s2, es[2..], c);
    assert s5 == Run(s1, es[1..], c) == Run(START, es, c);
    assert PunctualRun(s5, [], 0, c) && PunctualRun(s4, es[4..], 0, c);
    assert PunctualRun(s3, es[3..], 0, c);
    assert PunctualRun(s2, es[2..], 0, c);
    assert PunctualRun(s1, es[1..], 0, c);
    assert PunctualRun(START, es, 0, c);
    assert s5.jobs[0].status == Orphaned && s5.jobs[0].origin.owner == 0;
    assert !NoneOrphaned(s5, 0);
  }

  // ------------------------------------------------------------------ dead instances are recovered

  /** In every run, a sweep orphans an open row exactly when more than one TTL has passed since its
      lease was last written, the http grace is over, and the sweep did not find its process alive. */
  lemma OrphanedExactlyWhen(es: seq<Event>, i: Instance, id: Id, c: Config)
    requires var s := Run(START, es, c); i in s.confirmed && id in s.jobs && Open(s.jobs[id])
    ensures var s := Run(START, es, c); var r := s.jobs[id];
            Apply(s, Recover(i), c).jobs[id].status == Orphaned
            <==> (r.past.stampedAt + c.leaseTtl < s.now && id !in s.confirmed[i]
                  && (r.origin.transport == Http ==> r.origin.startedAt + c.httpGrace < s.now))
  {
    RunKeeps(START, es, c);
    assert RowOk(Run(START, es, c), id, c);
  }

  /** The event writes the row's lease or ends the row. */
  predicate Touches(e: Event, id: Id, owner: Instance) {
    match e
    case Heartbeat(i) => i == owner
    case MarkRunning(x, _) => x == id
    case Finish(x) => x == id
    case _ => false
  }

  function Elapsed(es: seq<Event>): nat
    decreases |es|
  {
    if es == [] then 0 else (if es[0].Pass? then es[0].time else 0) + Elapsed(es[1..])
  }

  /** No sweep in progress, and none during es, finds the row's process alive. */
  predicate NeverConfirmed(s: State, es: seq<Event>, id: Id, c: Config)
    decreases |es|
  {
    (forall i | i in s.confirmed :: id !in s.confirmed[i])
    && (es == [] || NeverConfirmed(Apply(s, es[0], c), es[1..], id, c))
  }

  lemma {:induction false} Untouched(s: State, es: seq<Event>, id: Id, c: Config)
    requires Inv(s, c) && id in s.jobs && (Open(s.jobs[id]) || s.jobs[id].status == Orphaned)
    requires forall k | 0 <= k < |es| :: !Touches(es[k], id, s.jobs[id].origin.owner)
    requires NeverConfirmed(s, es, id, c)
    ensures var t := Run(s, es, c);
            && id in t.jobs && t.now == s.now + Elapsed(es) && t.jobs[id].origin == s.jobs[id].origin
            && (t.jobs[id].status == Orphaned
                || (Open(t.jobs[id]) && t.jobs[id].past.stampedAt == s.jobs[id].past.stampedAt))
    decreases |es|
  {
    if es != [] {
      var t := Apply(s, es[0], c);
      ApplyKeeps(s, es[0], c);
      assert !Touches(es[0], id, s.jobs[id].origin.owner);
      assert id in t.jobs && t.jobs[id].origin == s.jobs[id].origin;
      assert forall k | 0 <= k < |es[1..]| :: es[1..][k] == es[k + 1];
      Untouched(t, es[1..], id, c);
    }
  }

  /** Once an owner stops, its process jobs are recovered: when more than one TTL has passed since the
      lease was last written, the next sweep leaves the row orphaned, unless a live pid was found. */
  lemma StoppedOwnerIsRecovered(before: seq<Event>, after: seq<Event>, id: Id, i: Instance, c: Config)
    requires var s := Run(START, before, c); id in s.jobs && Open(s.jobs[id]) && s.jobs[id].origin.transport == Process
    requires var s := Run(START, before, c);
             && (forall k | 0 <= k < |after| :: !Touches(after[k], id, s.jobs[id].origin.owner))
             && NeverConfirmed(s, after, id, c)
             && s.now + Elapsed(after) > s.jobs[id].past.stampedAt + c.leaseTtl
    requires i in Run(Run(START, before, c), after, c).confirmed
    ensures var t := Apply(Run(Run(START, before, c), after, c), Recover(i), c);
            id in t.jobs && t.jobs[id].status == Orphaned
  {
    var s := Run(START, before, c);
    RunKeeps(START, before, c);
    Untouched(s, after, id, c);
    RunKeeps(s, after, c);
    var t := Run(s, after, c);
    NeverConfirmedAtEnd(s, after, id, c);
    assert RowOk(t, id, c);
  }

  lemma {:induction false} NeverConfirmedAtEnd(s: State, es: seq<Event>, id: Id, c: Config)
    requires NeverConfirmed(s, es, id, c)
    ensures NeverConfirmed(Run(s, es, c), [], id, c)
    decreases |es|
  {
    if es != [] { NeverConfirmedAtEnd(Apply(s, es[0], c), es[1..], id, c); }
  }

  /** Grace is given to a row at most once by each instance: a sweep about to give it never has before. */
  lemma GraceOncePerInstance(es: seq<Event>, i: Instance, id: Id, c: Config)
    requires var s := Run(START, es, c); i in s.confirmed && id in s.confirmed[i]
    ensures var s := Run(START, es, c); id in s.jobs && i !in s.jobs[id].past.gracedBy && s.jobs[id].status != Queued
  {
    RunKeeps(START, es, c);
    assert RowOk(Run(START, es, c), id, c);
  }

  /** The exact condition for the grace to be one-shot: when a sweep gives it, it is the row's first
      grace iff the row still has the pid that the sweep probed when it read its candidates. */
  lemma FirstGraceIff(es: seq<Event>, i: Instance, id: Id, c: Config)
    requires var s := Run(START, es, c);
             i in s.confirmed && id in s.confirmed[i] && id in s.jobs && Open(s.jobs[id])
    ensures var s := Run(START, es, c); var t := Apply(s, Recover(i), c);
            id in t.jobs && i in t.jobs[id].past.gracedBy && (t.jobs[id].past.gracedBy == {i} <==> s.jobs[id].pid.Some?)
  {
    var s := Run(START, es, c);
    RunKeeps(START, es, c);
    assert RowOk(s, id, c);
    var g := s.jobs[id].past.gracedBy;
    assert i !in g && (g + {i} == {i} <==> g == {}) by {
      if k :| k in g { assert k in g + {i} && k != i; }
    }
  }

  /** But it is not one-shot across instances: two sweeps on the owner's host that read the candidates
      before either renews the lease both give it. */
  lemma TwoSweepersTwoGraces(c: Config)
    ensures exists es: seq<Event> :: var s := Run(START, es, c); 0 in s.jobs && s.jobs[0].past.gracedBy == {1, 2}
  {
    var running := [Heartbeat(0), Admit(0, Origin(0, 0, Process, 0)), MarkRunning(0, Some(7)), Pass(c.leaseTtl + 1)];
    var sweeps := [Select(1, 0, {7}), Select(2, 0, {7}), Recover(1), Recover(2)];
    var s := Run(START, running, c);
    FourSteps(START, running[0], running[1], running[2], running[3], c);
    assert 0 in s.jobs && Confirms(s.jobs[0], 0, {7}, s.now) && s.jobs[0].past.gracedBy == {} && s.confirmed == map[];
    FourSteps(s, sweeps[0], sweeps[1], sweeps[2], sweeps[3], c);
    BothGrace(s, c);
    RunConcat(START, running, sweeps, c);
    assert Run(START, running + sweeps, c).jobs[0].past.gracedBy == {1, 2};
  }

  lemma BothGrace(s: State, c: Config)
    requires 0 in s.jobs && Confirms(s.jobs[0], 0, {7}, s.now) && s.jobs[0].past.gracedBy == {} && s.confirmed == map[]
    ensures var u := Apply(Apply(s, Select(1, 0, {7}), c), Select(2, 0, {7}), c);
            var t := Apply(Apply(u, Recover(1), c), Recover(2), c);
            0 in t.jobs && t.jobs[0].past.gracedBy == {1, 2}
  {
    var u := Apply(Apply(s, Select(1, 0, {7}), c), Select(2, 0, {7}), c);
    assert u.jobs == s.jobs && 1 in u.confirmed && 2 in u.confirmed && 0 in u.confirmed[1] && 0 in u.confirmed[2];
    var t := Apply(u, Recover(1), c);
    assert t.jobs[0].past.gracedBy == {1} && Open(t.jobs[0]) && 2 in t.confirmed && 0 in t.confirmed[2];
  }

  lemma FourSteps(s: State, e: Event, f: Event, g: Event, h: Event, c: Config)
    ensures Run(s, [e, f, g, h], c) == Apply(Apply(Apply(Apply(s, e, c), f, c), g, c), h, c)
  {
    assert [e, f, g, h][1..] == [f, g, h] && [f, g, h][1..] == [g, h] && [g, h][1..] == [h] && [h][1..] == [];
    assert Run(s, [e, f, g, h], c) == Run(Apply(s, e, c), [f, g, h], c);
    assert Run(Apply(s, e, c), [f, g, h], c) == Run(Apply(Apply(s, e, c), f, c), [g, h], c);
    assert Run(Apply(Apply(Apply(s, e, c), f, c), g, c), [h], c)
        == Apply(Apply(Apply(Apply(s, e, c), f, c), g, c), h, c);
  }

  lemma {:induction false} RunConcat(s: State, es: seq<Event>, fs: seq<Event>, c: Config)
    ensures Run(s, es + fs, c) == Run(Run(s, es, c), fs, c)
    decreases |es|
  {
    if es == [] {
      assert es + fs == fs;
    } else {
      assert (es + fs)[1..] == es[1..] + fs;
      RunConcat(Apply(s, es[0], c), es[1..], fs, c);
    }
  }

  // ------------------------------------------------------------------ what each event does to one row

  /** An admitted job is queued under a lease of one TTL, at an instance that has beaten. */
  lemma AdmissionLeases(s: State, id: Id, origin: Origin, c: Config)
    requires id !in s.jobs
    ensures var t := Apply(s, Admit(id, origin), c);
      (id in t.jobs <==> origin.owner in s.beats)
      && (id in t.jobs ==> t.jobs[id].status == Queued && t.jobs[id].origin == origin
                           && t.jobs[id].lease == Some(s.now + c.leaseTtl) && t.jobs[id].pid == None)
  {
  }

  /** The events that renew a lease do so for one TTL from now, and change no other row: the owner's
      heartbeat, the marking of a queued job, and the pid grace of a sweep. */
  lemma Renewals(s: State, e: Event, id: Id, c: Config)
    requires id in s.jobs && Open(s.jobs[id])
    requires (e.Heartbeat? && s.jobs[id].origin.owner == e.i)
             || (e.MarkRunning? && e.id == id && s.jobs[id].status == Queued)
             || (e.Recover? && e.i in s.confirmed && id in s.confirmed[e.i])
    ensures var r := Apply(s, e, c).jobs;
      id in r && r[id].lease == Some(s.now + c.leaseTtl) && Open(r[id]) && r[id].origin == s.jobs[id].origin
      && r[id].status == (if e.MarkRunning? then Running else s.jobs[id].status)
      && r[id].pid == (match e case MarkRunning(_, pid) => pid case Recover(_) => None case _ => s.jobs[id].pid)
  {
  }

  /** A sweep gives the grace exactly to the stale process jobs of its host whose pid it found alive when
      it read its candidates. */
  lemma SelectFindsAlive(s: State, i: Instance, host: Host, alive: set<int>, id: Id, c: Config)
    requires i !in s.confirmed
    ensures var t := Apply(s, Select(i, host, alive), c);
      i in t.confirmed && t.jobs == s.jobs
      && (id in t.confirmed[i] <==>
            && id in s.jobs && Open(s.jobs[id]) && s.jobs[id].origin.transport == Process
            && s.jobs[id].origin.host == host && s.jobs[id].pid.Some? && s.jobs[id].pid.value in alive
            && (s.jobs[id].lease.None? || s.jobs[id].lease.value < s.now))
  {
  }

  /** An instance has one sweep in progress at a time, and none after it recovered or gave up; an orphaned
      row holds no lease. */
  lemma OneSweepEach(s: State, i: Instance, host: Host, alive: set<int>, id: Id, c: Config)
    ensures i in s.confirmed ==> Apply(s, Select(i, host, alive), c) == s
    ensures i !in Apply(s, Recover(i), c).confirmed && i !in Apply(s, Abandon(i), c).confirmed
    ensures Apply(s, Abandon(i), c).jobs == s.jobs
    ensures id in s.jobs && s.jobs[id].status != Orphaned && Apply(s, Recover(i), c).jobs[id].status == Orphaned ==>
              Apply(s, Recover(i), c).jobs[id].lease == None
  {
  }

  /** A finished job stays ended, and no sweep is left to touch it. */
  lemma {:induction false} EndedForever(s: State, id: Id, es: seq<Event>, c: Config)
    requires id in s.jobs && s.jobs[id].status == Ended
    ensures var t := Run(s, es, c); id in t.jobs && t.jobs[id] == s.jobs[id]
    decreases |es|
  {
    if es != [] { EndedForever(Apply(s, es[0], c), id, es[1..], c); }
  }

  lemma FinishEnds(s: State, id: Id, es: seq<Event>, c: Config)
    requires id in s.jobs
    ensures var t := Run(Apply(s, Finish(id), c), es, c); id in t.jobs && t.jobs[id].status == Ended
    ensures s.jobs[id].status != Ended ==> Run(Apply(s, Finish(id), c), es, c).jobs[id].lease == None
  {
    EndedForever(Apply(s, Finish(id), c), id, es, c);
  }
}
