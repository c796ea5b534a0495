/** Durable admission of one gateway instance: heartbeat ticks, registration at startup and on
    recovery, orphan sweeps and disposal, interleaved at every await. */
module Admission {

  const MAX_FAILURES := 3
  const MIN_SUCCESSES := 3

  /** One run of restoreDurableAdmission: waiting for the registration, for its heartbeat, for the
      sweep it asked for, or for the reconciliation of local artifacts. */
  datatype Phase = Registering | Beating | Sweeping | Reconciling
  datatype Restore = NoRestore | Restore(id: nat, phase: Phase)

  /** The heartbeat timer's single-flighted tick. */
  datatype Tick = NoTick | Heartbeat | ReRegister | Recovering

  /** A sweep body, by the await it is suspended at. `Finished` has settled but its `finally` has not run. */
  datatype Body = Selecting | Sweep | Following | Finished

  datatype Reaper = NoReap | AwaitSweep | Collecting

  datatype Gate = Gate(disposed: bool, admitting: bool, failures: nat, successes: nat, skipSweep: bool)
  datatype Restores = Restores(startup: Restore, recovery: Restore, tick: Tick, nextId: nat)
  datatype Sweeps = Sweeps(inFlight: bool, bodies: seq<Body>, reaper: Reaper)

  /** What an observer of the store and of the manager's gate records. */
  datatype Entry =
    | Began(id: nat, afterOutage: bool)   // a restore issued its registration
    | Registered(id: nat)                 // which the store acknowledged
    | Beat(id: nat)                       // as it did this restore's heartbeat
    | Admitted(id: nat)
    | RestoreRejected(id: nat)            // its registration, heartbeat, sweep or reconciliation was
    | TickSucceeded
    | TickFailed
    | RegisterIssued                      // a tick found its instance row gone and registers again
    | SweepBegan
    | RecoverIssued                       // recoverStaleJobs was called
    | GcIssued
    | Disposed

  datatype State = State(gate: Gate, restores: Restores, sweeps: Sweeps, log: seq<Entry>)

  datatype Who = Startup | Recovery

  datatype Event =
    | RegisterSettles(who: Who, ok: bool)
    | BeatSettles(who: Who, ok: bool)
    | RestoreSweepSettles(who: Who, ok: bool)
    | ReconcileSettles(who: Who, ok: bool)
    | TickFires(drift: bool)
    | TickBeatSettles(ok: bool, rowRefreshed: bool)
    | ReRegisterSettles(ok: bool)
    | ReaperFires
    | ReaperSweepSettles(ok: bool)
    | GcSettles
    | SweepNow
    | SelectSettles(i: nat, ok: bool)
    | RecoverSettles(i: nat, ok: bool)
    | FollowSettles(i: nat)
    | FinallyRuns(i: nat)
    | Dispose

  /** The constructor of a manager with a store: the startup restore has issued its registration. */
  const START := State(
    Gate(false, false, 0, 0, false),
    Restores(Restore(0, Registering), NoRestore, NoTick, 1),
    Sweeps(false, [], NoReap),
    [Began(0, false)])

  function Get(r: Restores, who: Who): Restore { if who == Startup then r.startup else r.recovery }

  /** A recovery restore is awaited by its tick, which ends with it. */
  function Put(r: Restores, who: Who, x: Restore): Restores {
    if who == Startup then r.(startup := x)
    else r.(recovery := x, tick := if x == NoRestore then NoTick else r.tick)
  }

  predicate At(s: State, who: Who, phase: Phase) {
    Get(s.restores, who).Restore? && Get(s.restores, who).phase == phase
  }

  function Move(s: State, who: Who, phase: Phase): State
    requires Get(s.restores, who).Restore?
  {
    s.(restores := Put(s.restores, who, Get(s.restores, who).(phase := phase)))
  }

  function End(s: State, who: Who): State { s.(restores := Put(s.restores, who, NoRestore)) }

  function Log(s: State, e: Entry): State { s.(log := s.log + [e]) }

  /** The catch of restoreDurableAdmission. */
  function RestoreFails(s: State, who: Who): State
    requires Get(s.restores, who).Restore?
  {
    var id := Get(s.restores, who).id;
    End(Log(s.(gate := s.gate.(admitting := false, successes := 0)), RestoreRejected(id)), who)
  }

  /** runOrphanSweep: join the sweep in flight, or start a body and run it to its first await. */
  function RunSweep(s: State): State {
    if s.sweeps.inFlight then s
    else if s.gate.disposed || !s.gate.admitting then
      s.(sweeps := s.sweeps.(inFlight := true, bodies := s.sweeps.bodies + [Finished]))
    else if s.gate.skipSweep then
      s.(gate := s.gate.(skipSweep := false),
         sweeps := s.sweeps.(inFlight := true, bodies := s.sweeps.bodies + [Finished]))
    else
      Log(s.(sweeps := s.sweeps.(inFlight := true, bodies := s.sweeps.bodies + [Selecting])), SweepBegan)
  }

  function Register(s: State, who: Who, ok: bool): State {
    if !At(s, who, Registering) then s
    else if !ok then RestoreFails(s, who)
    else Log(Move(s, who, Beating), Registered(Get(s.restores, who).id))
  }

  /** The restore's own heartbeat has settled. */
  function RestoreBeat(s: State, who: Who, ok: bool): State {
    if !At(s, who, Beating) then s
    else if !ok then RestoreFails(s, who)
    else
      var id := Get(s.restores, who).id;
      var t := Log(s, Beat(id));
      if s.gate.disposed then End(t, who) else RunSweep(Admit(Move(t, who, Sweeping), id))
  }

  function Admit(s: State, id: nat): State {
    Log(s.(gate := s.gate.(admitting := true, failures := 0, successes := 0)), Admitted(id))
  }

  function RestoreSwept(s: State, who: Who, ok: bool): State {
    if !At(s, who, Sweeping) then s
    else if !ok then RestoreFails(s, who)
    else if s.gate.disposed || !s.gate.admitting then End(s, who)
    else Move(s, who, Reconciling)
  }

  function Reconciled(s: State, who: Who, ok: bool): State {
    if !At(s, who, Reconciling) then s else if !ok then RestoreFails(s, who) else End(s, who)
  }

  function FireTick(s: State, drift: bool): State {
    if s.gate.disposed || s.restores.tick != NoTick then s
    else s.(gate := s.gate.(skipSweep := s.gate.skipSweep || drift), restores := s.restores.(tick := Heartbeat))
  }

  function TickFails(s: State): State { EndTick(Missed(s)) }

  function Missed(s: State): State {
    var failures := s.gate.failures + 1;
    var admitting := s.gate.admitting && failures < MAX_FAILURES;
    Log(s.(gate := s.gate.(failures := failures, successes := 0, admitting := admitting)), TickFailed)
  }

  function TickSucceeds(s: State): State {
    var t := Counted(s);
    if t.gate.admitting || t.gate.successes < MIN_SUCCESSES || t.gate.disposed then EndTick(t) else StartRecovery(t)
  }

  /** A successful heartbeat ends a streak of failures; it counts towards recovery while the gate is closed. */
  function Counted(s: State): State {
    var successes := if s.gate.admitting then s.gate.successes else s.gate.successes + 1;
    Log(s.(gate := s.gate.(failures := 0, successes := successes)), TickSucceeded)
  }

  function EndTick(s: State): State { s.(restores := s.restores.(tick := NoTick)) }

  function StartRecovery(s: State): State {
    var id := s.restores.nextId;
    var restores := s.restores.(recovery := Restore(id, Registering), tick := Recovering, nextId := id + 1);
    Log(s.(restores := restores), Began(id, true))
  }

  function TickBeat(s: State, ok: bool, rowRefreshed: bool): State {
    if s.restores.tick != Heartbeat then s
    else if !ok then TickFails(s)
    else if !rowRefreshed then Log(s.(restores := s.restores.(tick := ReRegister)), RegisterIssued)
    else TickSucceeds(s)
  }

  function TickReRegister(s: State, ok: bool): State {
    if s.restores.tick != ReRegister then s else if ok then TickSucceeds(s) else TickFails(s)
  }

  function FireReaper(s: State): State {
    if s.sweeps.reaper != NoReap then s else RunSweep(s.(sweeps := s.sweeps.(reaper := AwaitSweep)))
  }

  function ReaperSwept(s: State, ok: bool): State {
    if s.sweeps.reaper != AwaitSweep then s
    else if !ok || s.gate.disposed || !s.gate.admitting then s.(sweeps := s.sweeps.(reaper := NoReap))
    else Log(s.(sweeps := s.sweeps.(reaper := Collecting)), GcIssued)
  }

  function Collected(s: State): State {
    if s.sweeps.reaper == Collecting then s.(sweeps := s.sweeps.(reaper := NoReap)) else s
  }

  function SetBody(s: State, i: nat, b: Body): State
    requires i < |s.sweeps.bodies|
  {
    s.(sweeps := s.sweeps.(bodies := s.sweeps.bodies[i := b]))
  }

  predicate BodyAt(s: State, i: nat, b: Body) { i < |s.sweeps.bodies| && s.sweeps.bodies[i] == b }

  /** selectStaleProcessCandidates has settled: disposal is looked at again, the gate is not. */
  function Selected(s: State, i: nat, ok: bool): State {
    if !BodyAt(s, i, Selecting) then s
    else if !ok || s.gate.disposed then SetBody(s, i, Finished)
    else Log(SetBody(s, i, Sweep), RecoverIssued)
  }

  function Recovered(s: State, i: nat, ok: bool): State {
    if !BodyAt(s, i, Sweep) then s else SetBody(s, i, if ok then Following else Finished)
  }

  function Followed(s: State, i: nat): State { if !BodyAt(s, i, Following) then s else SetBody(s, i, Finished) }

  function Cleared(s: State, i: nat): State {
    if !BodyAt(s, i, Finished) then s
    else s.(sweeps := s.sweeps.(inFlight := false, bodies := s.sweeps.bodies[..i] + s.sweeps.bodies[i + 1..]))
  }

  function Shutdown(s: State): State {
    if s.gate.disposed then s else Log(s.(gate := s.gate.(disposed := true, admitting := false)), Disposed)
  }

  function Apply(s: State, e: Event): State {
    match e
    case RegisterSettles(who, ok) => Register(s, who, ok)
    case BeatSettles(who, ok) => RestoreBeat(s, who, ok)
    case RestoreSweepSettles(who, ok) => RestoreSwept(s, who, ok)
    case ReconcileSettles(who, ok) => Reconciled(s, who, ok)
    case TickFires(drift) => FireTick(s, drift)
    case TickBeatSettles(ok, rowRefreshed) => TickBeat(s, ok, rowRefreshed)
    case ReRegisterSettles(ok) => TickReRegister(s, ok)
    case ReaperFires => FireReaper(s)
    case ReaperSweepSettles(ok) => ReaperSwept(s, ok)
    case GcSettles => Collected(s)
    case SweepNow => RunSweep(s)
    case SelectSettles(i, ok) => Selected(s, i, ok)
    case RecoverSettles(i, ok) => Recovered(s, i, ok)
    case FollowSettles(i) => Followed(s, i)
    case FinallyRuns(i) => Cleared(s, i)
    case Dispose => Shutdown(s)
  }

  function Run(s: State, es: seq<Event>): State
    decreases |es|
  {
    if es == [] then s else Run(Apply(s, es[0]), es[1..])
  }

  // ------------------------------------------------------------------ what the log says

  function FailNext(n: nat, e: Entry): nat {
    match e
    case TickFailed => n + 1
    case TickSucceeded => 0
    case Admitted(_) => 0
    case _ => n
  }

  function OkNext(n: nat, e: Entry): nat {
    match e
    case TickFailed => 0
    case RestoreRejected(_) => 0
    case Admitted(_) => 0
    case TickSucceeded => n + 1
    case _ => n
  }

  /** Failed ticks since the last successful one or the last admission. */
  function FailStreak(log: seq<Entry>): nat {
    if log == [] then 0 else FailNext(FailStreak(log[..|log| - 1]), log[|log| - 1])
  }

  /** Successful ticks since the last failed one, the last rejected restore and the last admission. */
  function OkStreak(log: seq<Entry>): nat {
    if log == [] then 0 else OkNext(OkStreak(log[..|log| - 1]), log[|log| - 1])
  }

  /** What the store's answers, or a shutdown, say against admitting: entry e, coming after the log. */
  predicate Objects(log: seq<Entry>, e: Entry) {
    e.RestoreRejected? || e == Disposed || (e == TickFailed && FailStreak(log) + 1 >= MAX_FAILURES)
  }

  predicate ObjectsAt(log: seq<Entry>, k: nat) { k < |log| && Objects(log[..k], log[k]) }

  /** Some restore was admitted, and nothing has objected since. */
  ghost predicate Unopposed(log: seq<Entry>) {
    exists a :: 0 <= a < |log| && log[a].Admitted? && forall k :: a < k < |log| ==> !ObjectsAt(log, k)
  }

  /** Something objected after the latest sweep began, and no restore was admitted after it. */
  ghost predicate OpposedSinceSweep(log: seq<Entry>) {
    exists k :: 0 <= k < |log| && ObjectsAt(log, k)
                && forall j :: k < j < |log| ==> log[j] != SweepBegan && !log[j].Admitted?
  }

  lemma LastEntry(log: seq<Entry>, e: Entry)
    ensures FailStreak(log + [e]) == FailNext(FailStreak(log), e)
    ensures OkStreak(log + [e]) == OkNext(OkStreak(log), e)
    ensures ObjectsAt(log + [e], |log|) <==> Objects(log, e)
    ensures forall k: nat | k < |log| :: ObjectsAt(log + [e], k) <==> ObjectsAt(log, k)
  {
    assert (log + [e])[..|log + [e]| - 1] == log;
    forall k: nat | k < |log| ensures ObjectsAt(log + [e], k) <==> ObjectsAt(log, k) {
      assert (log + [e])[..k] == log[..k];
    }
  }

  lemma UnopposedNext(log: seq<Entry>, e: Entry)
    ensures Unopposed(log + [e]) <==> e.Admitted? || (Unopposed(log) && !Objects(log, e))
  {
    var next := log + [e];
    LastEntry(log, e);
    if e.Admitted? {
      assert next[|log|].Admitted?;
    }
    if Unopposed(log) && !Objects(log, e) {
      var a :| 0 <= a < |log| && log[a].Admitted? && forall k :: a < k < |log| ==> !ObjectsAt(log, k);
      assert next[a].Admitted? && forall k :: a < k < |next| ==> !ObjectsAt(next, k);
    }
    if Unopposed(next) && !e.Admitted? {
      var a :| 0 <= a < |next| && next[a].Admitted? && forall k :: a < k < |next| ==> !ObjectsAt(next, k);
      assert !ObjectsAt(next, |log|);
      assert log[a].Admitted?;
      forall k | a < k < |log| ensures !ObjectsAt(log, k) { assert !ObjectsAt(next, k); }
    }
  }

  lemma OpposedNext(log: seq<Entry>, e: Entry)
    ensures OpposedSinceSweep(log + [e])
       <==> Objects(log, e) || (OpposedSinceSweep(log) && e != SweepBegan && !e.Admitted?)
  {
    var next := log + [e];
    LastEntry(log, e);
    if Objects(log, e) {
      assert ObjectsAt(next, |log|);
    }
    if OpposedSinceSweep(log) && e != SweepBegan && !e.Admitted? {
      var k :| 0 <= k < |log| && ObjectsAt(log, k)
               && forall j :: k < j < |log| ==> log[j] != SweepBegan && !log[j].Admitted?;
      assert ObjectsAt(next, k) && forall j :: k < j < |next| ==> next[j] != SweepBegan && !next[j].Admitted?;
    }
    if OpposedSinceSweep(next) && !Objects(log, e) {
      var k :| 0 <= k < |next| && ObjectsAt(next, k)
               && forall j :: k < j < |next| ==> next[j] != SweepBegan && !next[j].Admitted?;
      assert next[|log|] == e;
      assert ObjectsAt(log, k);
      forall j | k < j < |log| ensures log[j] != SweepBegan && !log[j].Admitted? { assert log[j] == next[j]; }
    }
  }

  /** No admission and no recoverStaleJobs or GC call after disposal. */
  predicate SilentOnceDisposed(log: seq<Entry>) {
    forall i, j | 0 <= i < j < |log| && log[i] == Disposed ::
      !log[j].Admitted? && log[j] != RecoverIssued && log[j] != SweepBegan && log[j] != GcIssued && log[j] != Disposed
  }

  /** Restore `id` has registered, and then beaten, within the first n entries. */
  predicate HasRegistered(log: seq<Entry>, n: nat, id: nat) {
    exists i :: 0 <= i < n <= |log| && log[i] == Registered(id)
  }

  predicate HasBeaten(log: seq<Entry>, n: nat, id: nat) {
    exists j :: 0 <= j < n <= |log| && log[j] == Beat(id) && HasRegistered(log, j, id)
  }

  /** Every admission follows a registration and then a heartbeat of its own restore. */
  predicate AdmissionsEarned(log: seq<Entry>) {
    forall k | 0 <= k < |log| && log[k].Admitted? :: HasBeaten(log, k, log[k].id)
  }

  /** A restore after an outage follows three successful ticks in a row. */
  predicate RecoveriesEarned(log: seq<Entry>) {
    forall k | 0 <= k < |log| && log[k].Began? && log[k].afterOutage :: OkStreak(log[..k]) >= MIN_SUCCESSES
  }

  // ------------------------------------------------------------------ the invariant

  predicate GateOk(s: State) {
    && (s.gate.disposed <==> Disposed in s.log)
    && (s.gate.admitting ==> !s.gate.disposed && s.gate.failures < MAX_FAILURES)
    && s.gate.failures == FailStreak(s.log)
    && s.gate.successes <= OkStreak(s.log)
    && (s.gate.admitting ==> s.gate.successes == 0)
  }

  /** The gate is open exactly while nothing has objected since the last admission. */
  ghost predicate HistoryOk(s: State) { s.gate.admitting <==> Unopposed(s.log) }

  predicate PhaseOk(r: Restore, log: seq<Entry>) {
    r.Restore? && r.phase != Registering ==> HasRegistered(log, |log|, r.id)
  }

  predicate RestoresOk(s: State) {
    && (s.restores.recovery.Restore? <==> s.restores.tick == Recovering)
    && PhaseOk(s.restores.startup, s.log) && PhaseOk(s.restores.recovery, s.log)
  }

  ghost predicate SweepsOk(s: State) {
    && |s.sweeps.bodies| == (if s.sweeps.inFlight then 1 else 0)
    && (BodyAt(s, 0, Selecting) ==> (s.gate.admitting <==> !OpposedSinceSweep(s.log)))
  }

  predicate LogOk(s: State) { SilentOnceDisposed(s.log) && AdmissionsEarned(s.log) && RecoveriesEarned(s.log) }

  ghost predicate Inv(s: State) { GateOk(s) && HistoryOk(s) && RestoresOk(s) && SweepsOk(s) && LogOk(s) }

  /** Appending an entry keeps what the log says, if the entry itself is in order. */
  lemma LogGrows(log: seq<Entry>, e: Entry)
    requires SilentOnceDisposed(log) && AdmissionsEarned(log) && RecoveriesEarned(log)
    requires Disposed in log ==> !e.Admitted? && e != RecoverIssued && e != SweepBegan && e != GcIssued && e != Disposed
    requires e.Admitted? ==> HasBeaten(log, |log|, e.id)
    requires e.Began? && e.afterOutage ==> OkStreak(log) >= MIN_SUCCESSES
    ensures SilentOnceDisposed(log + [e]) && AdmissionsEarned(log + [e]) && RecoveriesEarned(log + [e])
    ensures forall id :: HasRegistered(log, |log|, id) ==> HasRegistered(log + [e], |log + [e]|, id)
  {
    var next := log + [e];
    forall k | 0 <= k < |next| && next[k].Admitted? ensures HasBeaten(next, k, next[k].id) {
      assert HasBeaten(log, k, next[k].id);
      BeatenStays(log, k, next[k].id, e);
    }
    forall k | 0 <= k < |next| && next[k].Began? && next[k].afterOutage ensures OkStreak(next[..k]) >= MIN_SUCCESSES {
      assert next[..k] == log[..k];
      assert k == |log| ==> log[..k] == log;
    }
    forall id | HasRegistered(log, |log|, id) ensures HasRegistered(next, |next|, id) {
      var i :| 0 <= i < |log| && log[i] == Registered(id);
      assert next[i] == Registered(id);
    }
  }

  lemma BeatenStays(log: seq<Entry>, n: nat, id: nat, e: Entry)
    requires HasBeaten(log, n, id)
    ensures HasBeaten(log + [e], n, id)
  {
    var j :| 0 <= j < n <= |log| && log[j] == Beat(id) && HasRegistered(log, j, id);
    var i :| 0 <= i < j && log[i] == Registered(id);
    assert (log + [e])[i] == Registered(id) && (log + [e])[j] == Beat(id);
    assert HasRegistered(log + [e], j, id);
  }

  lemma Appended(log: seq<Entry>, e: Entry)
    requires SilentOnceDisposed(log) && AdmissionsEarned(log) && RecoveriesEarned(log)
    requires Disposed in log ==> !e.Admitted? && e != RecoverIssued && e != SweepBegan && e != GcIssued && e != Disposed
    requires e.Admitted? ==> HasBeaten(log, |log|, e.id)
    requires e.Began? && e.afterOutage ==> OkStreak(log) >= MIN_SUCCESSES
    ensures SilentOnceDisposed(log + [e]) && AdmissionsEarned(log + [e]) && RecoveriesEarned(log + [e])
    ensures forall id :: HasRegistered(log, |log|, id) ==> HasRegistered(log + [e], |log + [e]|, id)
    ensures FailStreak(log + [e]) == FailNext(FailStreak(log), e)
    ensures OkStreak(log + [e]) == OkNext(OkStreak(log), e)
    ensures Unopposed(log + [e]) <==> e.Admitted? || (Unopposed(log) && !Objects(log, e))
    ensures OpposedSinceSweep(log + [e])
       <==> Objects(log, e) || (OpposedSinceSweep(log) && e != SweepBegan && !e.Admitted?)
    ensures Disposed in log + [e] <==> (Disposed in log || e == Disposed)
  {
    LogGrows(log, e);
    LastEntry(log, e);
    UnopposedNext(log, e);
    OpposedNext(log, e);
  }

  lemma RestoreFailsKeeps(s: State, who: Who)
    requires Inv(s) && Get(s.restores, who).Restore?
    ensures Inv(RestoreFails(s, who))
  {
    Appended(s.log, RestoreRejected(Get(s.restores, who).id));
  }

  /** Entries that say nothing about the gate. */
  predicate Neutral(e: Entry) {
    e.Began? || e.Registered? || e.Beat? || e == GcIssued || e == RecoverIssued || e == RegisterIssued
  }

  lemma NeutralKeeps(s: State, e: Entry)
    requires Inv(s) && Neutral(e)
    requires e == GcIssued || e == RecoverIssued ==> !s.gate.disposed
    requires e.Began? && e.afterOutage ==> s.gate.successes >= MIN_SUCCESSES
    ensures Inv(Log(s, e))
  {
    Appended(s.log, e);
  }

  lemma RegisteredNow(log: seq<Entry>, id: nat)
    ensures HasRegistered(log + [Registered(id)], |log| + 1, id)
  {
    assert (log + [Registered(id)])[|log|] == Registered(id);
  }

  lemma RegisterKeeps(s: State, who: Who, ok: bool)
    requires Inv(s)
    ensures Inv(Apply(s, RegisterSettles(who, ok)))
  {
    if At(s, who, Registering) {
      if ok {
        var id := Get(s.restores, who).id;
        NeutralKeeps(s, Registered(id));
        RegisteredNow(s.log, id);
        MoveKeeps(Log(s, Registered(id)), who, Beating);
      } else {
        RestoreFailsKeeps(s, who);
      }
    }
  }

  lemma RunSweepKeeps(s: State)
    requires Inv(s)
    ensures Inv(RunSweep(s))
  {
    if !s.sweeps.inFlight && s.gate.admitting && !s.gate.skipSweep { Appended(s.log, SweepBegan); }
  }

  lemma AdmitKeeps(s: State, id: nat)
    requires Inv(s) && !s.gate.disposed && HasBeaten(s.log, |s.log|, id)
    ensures Inv(Admit(s, id))
  {
    Appended(s.log, Admitted(id));
  }

  lemma BeatKeeps(s: State, id: nat)
    requires Inv(s) && HasRegistered(s.log, |s.log|, id)
    ensures Inv(Log(s, Beat(id))) && HasBeaten(Log(s, Beat(id)).log, |Log(s, Beat(id)).log|, id)
    ensures HasRegistered(Log(s, Beat(id)).log, |Log(s, Beat(id)).log|, id)
  {
    NeutralKeeps(s, Beat(id));
    RegisteredStays(s.log, id, Beat(id));
    assert (s.log + [Beat(id)])[|s.log|] == Beat(id);
  }

  lemma BeatAdmits(s: State, who: Who, id: nat)
    requires Inv(s) && At(s, who, Beating) && id == Get(s.restores, who).id && !s.gate.disposed
    ensures Inv(RunSweep(Admit(Move(Log(s, Beat(id)), who, Sweeping), id)))
  {
    BeatKeeps(s, id);
    MoveKeeps(Log(s, Beat(id)), who, Sweeping);
    AdmitKeeps(Move(Log(s, Beat(id)), who, Sweeping), id);
    RunSweepKeeps(Admit(Move(Log(s, Beat(id)), who, Sweeping), id));
  }

  lemma RestoreBeatKeeps(s: State, who: Who, ok: bool)
    requires Inv(s)
    ensures Inv(Apply(s, BeatSettles(who, ok)))
  {
    if At(s, who, Beating) {
      var id := Get(s.restores, who).id;
      if !ok {
        RestoreFailsKeeps(s, who);
      } else if s.gate.disposed {
        BeatKeeps(s, id);
        EndKeeps(Log(s, Beat(id)), who);
      } else {
        BeatAdmits(s, who, id);
      }
    }
  }

  lemma RegisteredStays(log: seq<Entry>, id: nat, e: Entry)
    requires HasRegistered(log, |log|, id)
    ensures HasRegistered(log + [e], |log|, id)
  {
    var i :| 0 <= i < |log| && log[i] == Registered(id);
    assert (log + [e])[i] == Registered(id);
  }

  lemma MoveKeeps(s: State, who: Who, phase: Phase)
    requires Inv(s) && Get(s.restores, who).Restore? && HasRegistered(s.log, |s.log|, Get(s.restores, who).id)
    ensures Inv(Move(s, who, phase))
  {
  }

  lemma EndKeeps(s: State, who: Who)
    requires Inv(s) && Get(s.restores, who).Restore?
    ensures Inv(End(s, who))
  {
  }

  lemma RestoreSweptKeeps(s: State, who: Who, ok: bool)
    requires Inv(s)
    ensures Inv(Apply(s, RestoreSweepSettles(who, ok)))
  {
    if At(s, who, Sweeping) {
      if !ok {
        RestoreFailsKeeps(s, who);
      } else if s.gate.disposed || !s.gate.admitting {
        EndKeeps(s, who);
      } else {
        MoveKeeps(s, who, Reconciling);
      }
    }
  }

  lemma ReconciledKeeps(s: State, who: Who, ok: bool)
    requires Inv(s)
    ensures Inv(Apply(s, ReconcileSettles(who, ok)))
  {
    if At(s, who, Reconciling) {
      if ok { EndKeeps(s, who); } else { RestoreFailsKeeps(s, who); }
    }
  }

  lemma MissedKeeps(s: State)
    requires Inv(s)
    ensures Inv(Missed(s))
  {
    assert Missed(s).log == s.log + [TickFailed];
    Appended(s.log, TickFailed);
  }

  lemma TickFailsKeeps(s: State)
    requires Inv(s) && (s.restores.tick == Heartbeat || s.restores.tick == ReRegister)
    ensures Inv(TickFails(s))
  {
    MissedKeeps(s);
    EndTickKeeps(Missed(s));
  }

  lemma StartRecoveryKeeps(s: State)
    requires Inv(s) && s.gate.successes >= MIN_SUCCESSES
    ensures Inv(StartRecovery(s))
  {
    NeutralKeeps(s, Began(s.restores.nextId, true));
  }

  lemma CountedKeeps(s: State)
    requires Inv(s)
    ensures Inv(Counted(s))
  {
    Appended(s.log, TickSucceeded);
  }

  lemma EndTickKeeps(s: State)
    requires Inv(s) && s.restores.tick != Recovering
    ensures Inv(EndTick(s))
  {
  }

  lemma TickSucceedsKeeps(s: State)
    requires Inv(s) && (s.restores.tick == Heartbeat || s.restores.tick == ReRegister)
    ensures Inv(TickSucceeds(s))
  {
    var t := Counted(s);
    CountedKeeps(s);
    if t.gate.admitting || t.gate.successes < MIN_SUCCESSES || t.gate.disposed {
      EndTickKeeps(t);
    } else {
      StartRecoveryKeeps(t);
    }
  }

  /** The reaper's own place is no part of the invariant. */
  lemma ReaperMoves(s: State, reaper: Reaper)
    requires Inv(s)
    ensures Inv(s.(sweeps := s.sweeps.(reaper := reaper)))
  {
  }

  lemma ReaperSweptKeeps(s: State, ok: bool)
    requires Inv(s)
    ensures Inv(Apply(s, ReaperSweepSettles(ok)))
  {
    if !ok || s.gate.disposed || !s.gate.admitting {
      ReaperMoves(s, NoReap);
    } else {
      ReaperMoves(s, Collecting);
      NeutralKeeps(s.(sweeps := s.sweeps.(reaper := Collecting)), GcIssued);
    }
  }

  lemma CollectedKeeps(s: State)
    requires Inv(s)
    ensures Inv(Apply(s, GcSettles))
  {
    ReaperMoves(s, NoReap);
  }

  lemma BodySet(s: State, i: nat, b: Body)
    requires Inv(s) && i < |s.sweeps.bodies| && b != Selecting
    ensures Inv(SetBody(s, i, b))
  {
  }

  lemma SelectedKeeps(s: State, i: nat, ok: bool)
    requires Inv(s)
    ensures Inv(Apply(s, SelectSettles(i, ok)))
  {
    if BodyAt(s, i, Selecting) {
      if !ok || s.gate.disposed {
        BodySet(s, i, Finished);
      } else {
        BodySet(s, i, Sweep);
        NeutralKeeps(SetBody(s, i, Sweep), RecoverIssued);
      }
    }
  }

  lemma ShutdownKeeps(s: State)
    requires Inv(s)
    ensures Inv(Apply(s, Dispose))
  {
    if !s.gate.disposed { Appended(s.log, Disposed); }
  }

  lemma FireTickKeeps(s: State, drift: bool)
    requires Inv(s)
    ensures Inv(Apply(s, TickFires(drift)))
  {
  }

  lemma FireReaperKeeps(s: State)
    requires Inv(s)
    ensures Inv(Apply(s, ReaperFires))
  {
    if s.sweeps.reaper == NoReap {
      ReaperMoves(s, AwaitSweep);
      RunSweepKeeps(s.(sweeps := s.sweeps.(reaper := AwaitSweep)));
    }
  }

  lemma TickBeatKeeps(s: State, ok: bool, refreshed: bool)
    requires Inv(s)
    ensures Inv(Apply(s, TickBeatSettles(ok, refreshed)))
  {
    if s.restores.tick == Heartbeat {
      if !ok {
        TickFailsKeeps(s);
      } else if refreshed {
        TickSucceedsKeeps(s);
      } else {
        NeutralKeeps(s, RegisterIssued);
      }
    }
  }

  lemma TickReRegisterKeeps(s: State, ok: bool)
    requires Inv(s)
    ensures Inv(Apply(s, ReRegisterSettles(ok)))
  {
    if s.restores.tick == ReRegister {
      if ok { TickSucceedsKeeps(s); } else { TickFailsKeeps(s); }
    }
  }

  lemma SweepNowKeeps(s: State)
    requires Inv(s)
    ensures Inv(Apply(s, SweepNow))
  {
    RunSweepKeeps(s);
  }

  lemma BodyMoves(s: State, i: nat, ok: bool)
    requires Inv(s)
    ensures Inv(Apply(s, RecoverSettles(i, ok))) && Inv(Apply(s, FollowSettles(i)))
  {
    if i < |s.sweeps.bodies| {
      BodySet(s, i, Following);
      BodySet(s, i, Finished);
    }
  }

  lemma ClearedKeeps(s: State, i: nat)
    requires Inv(s)
    ensures Inv(Apply(s, FinallyRuns(i)))
  {
  }

  lemma ApplyKeeps(s: State, e: Event)
    requires Inv(s)
    ensures Inv(Apply(s, e))
  {
    match e
    case RegisterSettles(who, ok) => RegisterKeeps(s, who, ok);
    case BeatSettles(who, ok) => RestoreBeatKeeps(s, who, ok);
    case RestoreSweepSettles(who, ok) => RestoreSweptKeeps(s, who, ok);
    case ReconcileSettles(who, ok) => ReconciledKeeps(s, who, ok);
    case TickFires(drift) => FireTickKeeps(s, drift);
    case TickBeatSettles(ok, refreshed) => TickBeatKeeps(s, ok, refreshed);
    case ReRegisterSettles(ok) => TickReRegisterKeeps(s, ok);
    case ReaperFires => FireReaperKeeps(s);
    case ReaperSweepSettles(ok) => ReaperSweptKeeps(s, ok);
    case GcSettles => CollectedKeeps(s);
    case SweepNow => SweepNowKeeps(s);
    case SelectSettles(i, ok) => SelectedKeeps(s, i, ok);
    case RecoverSettles(i, ok) => BodyMoves(s, i, ok);
    case FollowSettles(i) => BodyMoves(s, i, true);
    case FinallyRuns(i) => ClearedKeeps(s, i);
    case Dispose => ShutdownKeeps(s);
  }

  lemma {:induction false} RunKeeps(s: State, es: seq<Event>)
    requires Inv(s)
    ensures Inv(Run(s, es))
    decreases |es|
  {
    if es != [] {
      ApplyKeeps(s, es[0]);
      RunKeeps(Apply(s, es[0]), es[1..]);
    }
  }

  lemma StartOk()
    ensures Inv(START)
  {
    LastEntry([], Began(0, false));
    UnopposedNext([], Began(0, false));
    assert [] + [Began(0, false)] == [Began(0, false)];
  }

  // ------------------------------------------------------------------ main results

  /** In every interleaving: a disposed manager neither admits nor starts a sweep, a recovery of stale
      jobs or a GC; an admitting one has fewer than three failed ticks in a row behind it; every
      admission follows a registration and then a heartbeat of the same restore; a restore after an
      outage follows three successful ticks in a row; at most one sweep body exists. */
  lemma EveryInterleaving(es: seq<Event>)
    ensures var s := Run(START, es);
            && (s.gate.admitting ==> Disposed !in s.log && FailStreak(s.log) < MAX_FAILURES)
            && SilentOnceDisposed(s.log) && AdmissionsEarned(s.log) && RecoveriesEarned(s.log)
            && |s.sweeps.bodies| <= 1
  {
    StartOk();
    RunKeeps(START, es);
  }

  /** The gate by its history, in every interleaving: open iff some restore was admitted and since
      then no tick was the third in a row to fail, no restore was rejected, and nobody disposed. */
  lemma GateIff(es: seq<Event>)
    ensures Run(START, es).gate.admitting <==> Unopposed(Run(START, es).log)
  {
    StartOk();
    RunKeeps(START, es);
  }

  /** A body that is about to call recoverStaleJobs looks at disposal again but not at the gate: the
      instance still admits at that moment exactly when, since the sweep began or a later admission,
      no tick was the third in a row to fail and no restore was rejected. */
  lemma SweepTrustsOldGate(es: seq<Event>, i: nat)
    requires BodyAt(Run(START, es), i, Selecting) && !Run(START, es).gate.disposed
    ensures var s := Run(START, es);
            Apply(s, SelectSettles(i, true)).log == s.log + [RecoverIssued]
            && (s.gate.admitting <==> !OpposedSinceSweep(s.log))
  {
    StartOk();
    RunKeeps(START, es);
  }

  // ------------------------------------------------------------------ registrations after disposal

  predicate IsRegistration(e: Entry) { e.Began? || e == RegisterIssued }

  /** No registration was issued from entry n on. */
  predicate NoneSince(log: seq<Entry>, n: nat) { forall k | n <= k < |log| :: !IsRegistration(log[k]) }

  predicate Quiescent(s: State) { s.gate.disposed && s.restores.tick != Heartbeat }

  lemma QuiescentStep(s: State, e: Event)
    requires Quiescent(s)
    ensures Quiescent(Apply(s, e)) && s.log <= Apply(s, e).log && NoneSince(Apply(s, e).log, |s.log|)
  {
  }

  lemma {:induction false} QuiescentRun(s: State, es: seq<Event>)
    requires Quiescent(s)
    ensures s.log <= Run(s, es).log && NoneSince(Run(s, es).log, |s.log|)
    decreases |es|
  {
    if es != [] {
      var t := Apply(s, es[0]);
      QuiescentStep(s, es[0]);
      QuiescentRun(t, es[1..]);
      forall k | |s.log| <= k < |Run(s, es).log| ensures !IsRegistration(Run(s, es).log[k]) {
        assert k < |t.log| ==> Run(s, es).log[k] == t.log[k];
      }
    }
  }

  /** An instance can still register itself after its disposal exactly when a tick's heartbeat was in
      flight then: the tick that finds its row gone looks at disposal neither before nor after. */
  lemma LateRegistrationIff(es: seq<Event>)
    requires Run(START, es).gate.disposed
    ensures var s := Run(START, es);
            (exists more :: !NoneSince(Run(s, more).log, |s.log|)) <==> s.restores.tick == Heartbeat
  {
    var s := Run(START, es);
    if s.restores.tick == Heartbeat {
      var more := [TickBeatSettles(true, false)];
      assert more[1..] == [];
      assert Run(s, more) == Run(Apply(s, more[0]), []);
      assert Run(s, more).log == s.log + [RegisterIssued];
      assert IsRegistration(Run(s, more).log[|s.log|]);
      assert !NoneSince(Run(s, more).log, |s.log|);
    } else {
      forall more ensures NoneSince(Run(s, more).log, |s.log|) { QuiescentRun(s, more); }
    }
  }

  /** And such a disposal is reachable: the first tick's heartbeat is in flight when it comes. */
  lemma DisposedMidHeartbeat()
    ensures var s := Run(START, [TickFires(false), Dispose]); s.gate.disposed && s.restores.tick == Heartbeat
  {
    TwoSteps(START, TickFires(false), Dispose);
  }

  // ------------------------------------------------------------------ recovery, and the sweep it does not wait for

  function HealthyTick(s: State): State { Apply(Apply(s, TickFires(false)), TickBeatSettles(true, true)) }

  function FailedTick(s: State): State { Apply(Apply(s, TickFires(false)), TickBeatSettles(false, true)) }

  /** An outage is not permanent: between ticks, three healthy ticks and a restore that goes through
      open the gate again, whatever the counters were. */
  lemma OutageEnds(es: seq<Event>)
    requires var s := Run(START, es); !s.gate.disposed && !s.gate.admitting && s.restores.tick == NoTick
    ensures var s := HealthyTick(HealthyTick(HealthyTick(Run(START, es))));
            Apply(Apply(s, RegisterSettles(Recovery, true)), BeatSettles(Recovery, true)).gate.admitting
  {
    var s := Run(START, es);
    StartOk();
    RunKeeps(START, es);
    HealthyTickWaits(s, 0);
    HealthyTickWaits(HealthyTick(s), 1);
    HealthyTickWaits(HealthyTick(HealthyTick(s)), 2);
    RestoreAdmits(HealthyTick(HealthyTick(HealthyTick(s))));
  }

  lemma HealthyTickWaits(s: State, n: nat)
    requires Waiting(s, n)
    ensures Waiting(HealthyTick(s), n + 1)
  {
  }

  lemma RestoreAdmits(s: State)
    requires Waiting(s, MIN_SUCCESSES)
    ensures Apply(Apply(s, RegisterSettles(Recovery, true)), BeatSettles(Recovery, true)).gate.admitting
  {
  }

  /** Closed, with n healthy ticks counted or the recovery already waiting for its registration. */
  predicate Waiting(s: State, n: nat) {
    && !s.gate.disposed && !s.gate.admitting
    && ((s.restores.tick == Recovering && At(s, Recovery, Registering))
        || (s.restores.tick == NoTick && n <= s.gate.successes && n < MIN_SUCCESSES))
  }

  /** And it does happen: three failed ticks while the candidates are being selected close the gate,
      and the sweep goes on to recover stale jobs. */
  lemma SweepAfterQuiescing()
    ensures exists s, es :: s == Run(START, es) && BodyAt(s, 0, Selecting) && !s.gate.disposed && !s.gate.admitting
  {
    var a := Apply(Apply(START, RegisterSettles(Startup, true)), BeatSettles(Startup, true));
    assert a.gate.admitting && BodyAt(a, 0, Selecting);
    var b := FailedTick(a);
    assert b.gate.admitting && b.gate.failures == 1 && BodyAt(b, 0, Selecting);
    var c := FailedTick(b);
    assert c.gate.admitting && c.gate.failures == 2 && BodyAt(c, 0, Selecting);
    var d := FailedTick(c);
    assert !d.gate.admitting && BodyAt(d, 0, Selecting);
    var fail := [TickFires(false), TickBeatSettles(false, true)];
    TwoSteps(START, RegisterSettles(Startup, true), BeatSettles(Startup, true));
    TwoSteps(a, fail[0], fail[1]);
    TwoSteps(b, fail[0], fail[1]);
    TwoSteps(c, fail[0], fail[1]);
    var start := [RegisterSettles(Startup, true), BeatSettles(Startup, true)];
    RunConcat(START, start, fail);
    RunConcat(START, start + fail, fail);
    RunConcat(START, start + fail + fail, fail);
    assert d == Run(START, start + fail + fail + fail);
  }

  lemma TwoSteps(s: State, e: Event, f: Event)
    ensures Run(s, [e, f]) == Apply(Apply(s, e), f)
  {
    assert [e, f][1..] == [f] && [f][1..] == [];
    assert Run(Apply(s, e), [f]) == Run(Apply(Apply(s, e), f), []);
  }

  lemma {:induction false} RunConcat(s: State, es: seq<Event>, fs: seq<Event>)
    ensures Run(s, es + fs) == Run(Run(s, es), fs)
    decreases |es|
  {
    if es == [] {
      assert es + fs == fs;
    } else {
      assert (es + fs)[1..] == es[1..] + fs;
      RunConcat(Apply(s, es[0]), es[1..], fs);
    }
  }

  // ------------------------------------------------------------------ sweeps that do run

  /** Open, with no sweep in progress. */
  predicate OpenAndIdle(s: State) {
    !s.gate.disposed && s.gate.admitting && !s.sweeps.inFlight && s.sweeps.bodies == []
  }

  /** A sweep request is skipped at most once: when it was, the next one begins a sweep. */
  lemma SkipsAtMostOnce(s: State)
    requires OpenAndIdle(s)
    ensures Apply(Apply(Apply(s, SweepNow), FinallyRuns(0)), SweepNow).log == s.log + [SweepBegan]
  {
    var t := Apply(Apply(s, SweepNow), FinallyRuns(0));
    if s.gate.skipSweep { assert t.sweeps.bodies == [] && !t.gate.skipSweep; }
  }

  /** A request joins the sweep in flight, or is itself in flight until its `finally` has run, even if
      there is nothing for it to do. */
  lemma RequestIsInFlight(s: State)
    requires |s.sweeps.bodies| == if s.sweeps.inFlight then 1 else 0
    ensures var t := Apply(s, SweepNow);
            t.sweeps.inFlight && |t.sweeps.bodies| == 1 && (s.sweeps.inFlight ==> t == s)
            && (!s.sweeps.inFlight && (s.gate.disposed || !s.gate.admitting || s.gate.skipSweep) ==>
                  t.log == s.log && Apply(t, FinallyRuns(0)).sweeps == s.sweeps)
  {
  }

  /** And it is skipped after a late tick only. */
  lemma SkippedAfterDrift(s: State, drift: bool)
    requires OpenAndIdle(s) && !s.gate.skipSweep && s.restores.tick == NoTick
    ensures Apply(Apply(s, TickFires(drift)), SweepNow).log == if drift then s.log else s.log + [SweepBegan]
  {
  }

  /** A sweep that is not skipped recovers stale jobs if its candidates could be read, and ends; the
      reaper that asked for it then collects old instances. */
  lemma SweepRunsThrough(s: State, read: bool, recovered: bool)
    requires OpenAndIdle(s) && !s.gate.skipSweep && s.sweeps.reaper == NoReap
    ensures var a := Apply(Apply(s, ReaperFires), SelectSettles(0, read));
            var b := Apply(Apply(Apply(a, RecoverSettles(0, recovered)), FollowSettles(0)), FinallyRuns(0));
            var c := Apply(b, ReaperSweepSettles(true));
            && OpenAndIdle(b) && b.log == s.log + [SweepBegan] + (if read then [RecoverIssued] else [])
            && c.log == b.log + [GcIssued] && Apply(c, GcSettles).sweeps.reaper == NoReap
  {
    var z := Apply(s, ReaperFires);
    assert BodyAt(z, 0, Selecting) && z.log == s.log + [SweepBegan];
    var a := Apply(z, SelectSettles(0, read));
    assert BodyAt(a, 0, if read then Sweep else Finished);
    var b := Apply(Apply(a, RecoverSettles(0, recovered)), FollowSettles(0));
    assert BodyAt(b, 0, Finished);
  }

  // ------------------------------------------------------------------ restores have their own numbers

  /** Restores are numbered as they begin. */
  predicate Numbered(log: seq<Entry>, nextId: nat) {
    && (forall k | 0 <= k < |log| && log[k].Began? :: log[k].id < nextId)
    && (forall j, k | 0 <= j < k < |log| && log[j].Began? && log[k].Began? :: log[j].id < log[k].id)
  }

  /** What one event adds to the log: a restore begins with the next number, or none begins. */
  predicate BeginsNext(s: State, t: State) {
    && s.log <= t.log
    && ((t.restores.nextId == s.restores.nextId && (forall k | |s.log| <= k < |t.log| :: !t.log[k].Began?))
        || (t.restores.nextId == s.restores.nextId + 1 && |t.log| > |s.log|
            && (forall k | |s.log| <= k < |t.log| - 1 :: !t.log[k].Began?)
            && t.log[|t.log| - 1] == Began(s.restores.nextId, true)))
  }

  lemma EachEventBeginsNext(s: State, e: Event)
    ensures BeginsNext(s, Apply(s, e))
  {
  }

  lemma NumberedNext(s: State, t: State)
    requires Numbered(s.log, s.restores.nextId) && BeginsNext(s, t)
    ensures Numbered(t.log, t.restores.nextId)
  {
    forall k | 0 <= k < |t.log| && t.log[k].Began? ensures t.log[k].id < t.restores.nextId {
      assert k < |s.log| ==> t.log[k] == s.log[k];
    }
    forall j, k | 0 <= j < k < |t.log| && t.log[j].Began? && t.log[k].Began? ensures t.log[j].id < t.log[k].id {
      assert j < |s.log| ==> t.log[j] == s.log[j];
      assert k < |s.log| ==> t.log[k] == s.log[k];
    }
  }

  lemma {:induction false} NumberedRun(s: State, es: seq<Event>)
    requires Numbered(s.log, s.restores.nextId)
    ensures Numbered(Run(s, es).log, Run(s, es).restores.nextId)
    decreases |es|
  {
    if es != [] {
      EachEventBeginsNext(s, es[0]);
      NumberedNext(s, Apply(s, es[0]));
      NumberedRun(Apply(s, es[0]), es[1..]);
    }
  }

  /** No two restores of a run share a number, so "the same restore" is one restore. */
  lemma RestoresAreDistinct(es: seq<Event>)
    ensures Numbered(Run(START, es).log, Run(START, es).restores.nextId)
  {
    NumberedRun(START, es);
  }

  // ------------------------------------------------------------------ the ends of ticks, restores and sweeps

  /** A tick that finds its row gone counts as what its re-registration comes to. */
  lemma RepairedTick(s: State, ok: bool)
    requires s.restores.tick == NoTick && !s.gate.disposed
    ensures var t := Apply(Apply(Apply(s, TickFires(false)), TickBeatSettles(true, false)), ReRegisterSettles(ok));
            && s.log + [RegisterIssued, if ok then TickSucceeded else TickFailed] <= t.log
            && t.restores.tick != Heartbeat && t.restores.tick != ReRegister
  {
    var u := Apply(s, TickFires(false));
    var v := Apply(u, TickBeatSettles(true, false));
    assert v.log == s.log + [RegisterIssued] && v.restores.tick == ReRegister;
  }

  /** After its admission a restore waits for the sweep, reconciles if the gate is still open, and ends;
      a failure on the way closes the gate, and recovery starts counting anew. */
  lemma RestoreEnds(s: State, who: Who, swept: bool, reconciled: bool)
    requires At(s, who, Sweeping)
    ensures var id := Get(s.restores, who).id;
            var a := Apply(s, RestoreSweepSettles(who, swept));
            var b := Apply(a, ReconcileSettles(who, reconciled));
            && (At(a, who, Reconciling) <==> swept && !s.gate.disposed && s.gate.admitting)
            && Get(b.restores, who) == NoRestore && (who == Recovery ==> b.restores.tick == NoTick)
            && (if !swept || (At(a, who, Reconciling) && !reconciled) then
                  b.log == s.log + [RestoreRejected(id)] && !b.gate.admitting && b.gate.successes == 0
                else b.log == s.log && b.gate == s.gate)
  {
  }

  /** Whatever was recovered, a sweep goes on to write it down, and one that could not recover ends; a
      reaper whose sweep failed, or that is not waiting for one, collects nothing. */
  lemma SweepAnswers(s: State, i: nat, ok: bool)
    ensures BodyAt(s, i, Sweep) ==> BodyAt(Apply(s, RecoverSettles(i, ok)), i, if ok then Following else Finished)
    ensures !ok || s.sweeps.reaper != AwaitSweep ==> Apply(s, ReaperSweepSettles(ok)).log == s.log
    ensures s.sweeps.reaper == AwaitSweep ==> Apply(s, ReaperSweepSettles(false)).sweeps.reaper == NoReap
    ensures s.sweeps.reaper != AwaitSweep ==> Apply(s, ReaperSweepSettles(ok)) == s
    ensures s.sweeps.reaper != Collecting ==> Apply(s, GcSettles) == s
  {
  }
}
