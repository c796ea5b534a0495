/** A detached process group stays owned from the first termination request until SIGKILL has been sent. */
module TerminationFence {
  import opened Options

  datatype Signal = Term | Int | Kill

  /** What the fence does to the world: signal the group, or give up its registration. */
  datatype Effect = Asked | Sent(signal: Signal, at: nat) | Unregistered

  datatype State = State(now: nat, timer: Option<nat>, pending: bool, log: seq<Effect>)

  const FRESH := State(0, None, false, [])

  datatype Event =
    | Request(signal: Signal, graceMs: int)
    | TimerFires
    | LeaderExit
    | Pass(ms: nat)

  function Force(s: State): State {
    s.(timer := None, pending := false, log := s.log + [Sent(Kill, s.now), Unregistered])
  }

  /** `Asked` marks the request itself, before anything is sent. */
  function Requested(s: State, signal: Signal, graceMs: int): State {
    var t := s.(pending := true, log := s.log + [Asked, Sent(signal, s.now)]);
    if signal == Kill || graceMs <= 0 then Force(t)
    else if s.timer.Some? then t
    else t.(timer := Some(s.now + graceMs))
  }

  /** Time does not pass an armed timer's deadline before it fires. */
  function Apply(s: State, e: Event): State {
    match e
    case Request(signal, graceMs) => Requested(s, signal, graceMs)
    case TimerFires => if s.timer.Some? && s.timer.value <= s.now then Force(s) else s
    case LeaderExit => if s.pending then s else s.(log := s.log + [Unregistered])
    case Pass(ms) => if s.timer.Some? && s.timer.value < s.now + ms then s else s.(now := s.now + ms)
  }

  function Run(s: State, es: seq<Event>): State {
    if es == [] then s else Apply(Run(s, es[..|es| - 1]), es[|es| - 1])
  }

  class Fence {
    var now: nat
    var escalationTimer: Option<nat>
    var terminationPending: bool
    var log: seq<Effect>

    ghost function Model(): State
      reads this
    {
      State(now, escalationTimer, terminationPending, log)
    }

    constructor ()
      ensures Model() == FRESH
    {
      now, escalationTimer, terminationPending, log := 0, None, false, [];
    }

    method ForceKillAndCleanup()
      modifies this
      ensures Model() == Force(old(Model()))
    {
      escalationTimer := None;
      log := log + [Sent(Kill, now)];
      terminationPending := false;
      log := log + [Unregistered];
    }

    method Request(signal: Signal, graceMs: int)
      modifies this
      ensures Model() == Requested(old(Model()), signal, graceMs)
    {
      terminationPending := true;
      log := log + [Asked, Sent(signal, now)];
      if signal == Kill || graceMs <= 0 {
        escalationTimer := None;
        ForceKillAndCleanup();
        return;
      }
      if escalationTimer.Some? { return; }
      escalationTimer := Some(now + graceMs);
    }

    method CleanupAfterLeaderExit()
      modifies this
      ensures Model() == Apply(old(Model()), LeaderExit)
    {
      if !terminationPending { log := log + [Unregistered]; }
    }
  }

  // ------------------------------------------------------------------ properties of the log

  /** The entries say that a request was made after which no SIGKILL has been sent. */
  predicate Owed(log: seq<Effect>) {
    exists r :: 0 <= r < |log| && log[r] == Asked && forall j :: r < j < |log| ==> !IsKill(log[j])
  }

  predicate IsKill(e: Effect) { e.Sent? && e.signal == Kill }

  /** The group is only given up when no kill is owed. */
  predicate Fenced(log: seq<Effect>) {
    forall k :: 0 <= k < |log| && log[k] == Unregistered ==> !Owed(log[..k])
  }

  lemma OwedGrows(log: seq<Effect>, e: Effect)
    ensures Owed(log + [e]) <==> (e == Asked || (Owed(log) && !IsKill(e)))
  {
    var next := log + [e];
    if e == Asked { assert next[|log|] == Asked; }
    if Owed(log) && !IsKill(e) {
      var r :| 0 <= r < |log| && log[r] == Asked && forall j :: r < j < |log| ==> !IsKill(log[j]);
      assert next[r] == Asked && forall j :: r < j < |next| ==> !IsKill(next[j]);
    }
    if Owed(next) && e != Asked {
      var r :| 0 <= r < |next| && next[r] == Asked && forall j :: r < j < |next| ==> !IsKill(next[j]);
      assert !IsKill(next[|log|]);
      assert log[r] == Asked;
      forall j | r < j < |log| ensures !IsKill(log[j]) { assert log[j] == next[j]; }
    }
  }

  lemma FencedGrows(log: seq<Effect>, e: Effect)
    requires Fenced(log) && (e == Unregistered ==> !Owed(log))
    ensures Fenced(log + [e])
  {
    var next := log + [e];
    forall k | 0 <= k < |next| && next[k] == Unregistered ensures !Owed(next[..k]) {
      assert next[..k] == log[..k];
      assert k == |log| ==> log[..k] == log;
    }
  }

  predicate Inv(s: State) {
    && Fenced(s.log)
    && (s.pending <==> s.timer.Some?)
    && (s.pending <==> Owed(s.log))
    && (s.timer.Some? ==> s.now <= s.timer.value)
  }

  lemma ForceKeeps(s: State)
    requires Fenced(s.log)
    ensures Inv(Force(s))
  {
    OwedGrows(s.log, Sent(Kill, s.now));
    FencedGrows(s.log, Sent(Kill, s.now));
    OwedGrows(s.log + [Sent(Kill, s.now)], Unregistered);
    FencedGrows(s.log + [Sent(Kill, s.now)], Unregistered);
    assert s.log + [Sent(Kill, s.now)] + [Unregistered] == s.log + [Sent(Kill, s.now), Unregistered];
  }

  lemma RequestKeeps(s: State, signal: Signal, graceMs: int)
    requires Inv(s)
    ensures Inv(Requested(s, signal, graceMs))
  {
    OwedGrows(s.log, Asked);
    FencedGrows(s.log, Asked);
    OwedGrows(s.log + [Asked], Sent(signal, s.now));
    FencedGrows(s.log + [Asked], Sent(signal, s.now));
    assert s.log + [Asked] + [Sent(signal, s.now)] == s.log + [Asked, Sent(signal, s.now)];
    if signal == Kill || graceMs <= 0 {
      ForceKeeps(s.(pending := true, log := s.log + [Asked, Sent(signal, s.now)]));
    }
  }

  /** In every run: the group is unregistered only when no request is without a SIGKILL after it;
      between events `pending` holds exactly when a timer is armed and exactly when a kill is owed. */
  lemma {:induction false} NeverGivenUpEarly(es: seq<Event>)
    ensures Fenced(Run(FRESH, es).log)
    ensures Run(FRESH, es).pending <==> Run(FRESH, es).timer.Some?
    ensures Run(FRESH, es).pending <==> Owed(Run(FRESH, es).log)
    ensures Run(FRESH, es).timer.Some? ==> Run(FRESH, es).now <= Run(FRESH, es).timer.value
  {
    if es != [] {
      var s, e := Run(FRESH, es[..|es| - 1]), es[|es| - 1];
      NeverGivenUpEarly(es[..|es| - 1]);
      match e
      case Request(signal, graceMs) => RequestKeeps(s, signal, graceMs);
      case TimerFires => ForceKeeps(s);
      case LeaderExit =>
        if !s.pending {
          OwedGrows(s.log, Unregistered);
          FencedGrows(s.log, Unregistered);
        }
      case Pass(ms) =>
    }
  }

  /** Further requests never postpone the escalation: once a request with grace g has armed the timer,
      whatever follows, either the timer still stands or a SIGKILL was sent within g of that request. */
  lemma {:induction false} KilledInTime(s: State, es: seq<Event>)
    requires s.timer.Some? && s.now <= s.timer.value
    ensures var t := Run(s, es);
            (t.timer == s.timer && t.now <= s.timer.value && s.log <= t.log)
            || exists k :: |s.log| <= k < |t.log| && IsKill(t.log[k]) && t.log[k].at <= s.timer.value
  {
    if es != [] {
      var u, e := Run(s, es[..|es| - 1]), es[|es| - 1];
      var t := Apply(u, e);
      KilledInTime(s, es[..|es| - 1]);
      assert u.log <= t.log;
      if u.timer == s.timer && u.now <= s.timer.value && s.log <= u.log {
        if t.timer != s.timer {
          var k := |t.log| - 2;
          assert t.log[k] == Sent(Kill, u.now);
        }
      } else {
        var k :| |s.log| <= k < |u.log| && IsKill(u.log[k]) && u.log[k].at <= s.timer.value;
        assert t.log[k] == u.log[k];
      }
    }
  }

  /** A request signals the group at once with the signal asked for; then it kills and gives up, or keeps
      the armed deadline, or arms one a grace away. */
  lemma RequestDoes(s: State, signal: Signal, graceMs: int)
    ensures var t := Requested(s, signal, graceMs);
      && t.now == s.now && s.log + [Asked, Sent(signal, s.now)] <= t.log
      && (signal == Kill || graceMs <= 0 ==>
            t.timer == None && t.log == s.log + [Asked, Sent(signal, s.now), Sent(Kill, s.now), Unregistered])
      && (signal != Kill && graceMs > 0 ==>
            t.log == s.log + [Asked, Sent(signal, s.now)]
            && t.timer == if s.timer.Some? then s.timer else Some(s.now + graceMs))
  {
  }

  /** So a group first asked to end with a grace is killed no later than that grace allows, and until
      then, unless a later request says so, no earlier. */
  lemma KilledWithinGrace(s: State, signal: Signal, graceMs: int, es: seq<Event>)
    requires s.timer == None && signal != Kill && graceMs > 0
    ensures var r := Requested(s, signal, graceMs); var t := Run(r, es);
            (t.timer == Some(s.now + graceMs) && t.now <= s.now + graceMs)
            || exists k :: |r.log| <= k < |t.log| && IsKill(t.log[k]) && t.log[k].at <= s.now + graceMs
  {
    KilledInTime(Requested(s, signal, graceMs), es);
  }

  lemma {:induction false} NotKilledEarly(s: State, es: seq<Event>)
    requires s.timer.Some? && forall k | 0 <= k < |es| :: es[k].Request? ==> es[k].signal != Kill && es[k].graceMs > 0
    ensures var t := Run(s, es);
            s.log <= t.log && (t.timer == s.timer || t.now >= s.timer.value)
            && forall k | |s.log| <= k < |t.log| && IsKill(t.log[k]) :: t.log[k].at >= s.timer.value
  {
    if es != [] {
      var before := es[..|es| - 1];
      NotKilledEarly(s, before);
      assert forall k | 0 <= k < |before| :: before[k] == es[k];
    }
  }

  /** An armed timer that has come due kills the group and gives it up; a leader's exit gives up a group
      that nobody asked to end. */
  lemma TimerKills(s: State)
    ensures s.timer.Some? && s.timer.value <= s.now ==>
              Apply(s, TimerFires).log == s.log + [Sent(Kill, s.now), Unregistered]
              && Apply(s, TimerFires).timer == None
    ensures !s.pending ==> Apply(s, LeaderExit).log == s.log + [Unregistered]
    ensures forall ms: nat :: (s.timer.Some? ==> s.now + ms <= s.timer.value) ==> Apply(s, Pass(ms)).now == s.now + ms
  {
  }
}
