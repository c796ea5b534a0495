/** What each call does to the queue and to the permits, told without the counters: by who holds a
    permit, who waits, and the limits.  A callback counts as the calls it makes. */
module LimiterLaws {
  import opened LimiterSpec
  import opened LimiterProofs

  /** Another permit for p fits beside the permits in `live`. */
  ghost predicate Fits(cfg: Config, live: map<nat, Provider>, p: Provider) {
    |live| < cfg.maxRunning && |Holders(live, p)| < cfg.maxRunningPerProvider
  }

  function Without(q: seq<Entry>, i: nat): seq<Entry>
    requires i < |q|
  {
    q[..i] + q[i + 1..]
  }

  // ------------------------------------------------------------------ callbacks are calls

  /** The calls a callback makes, given the permit it was handed. */
  function CallsOf(c: Script, own: Held): seq<Call> {
    match c
    case Return => []
    case Throw => []
    case ReleaseOwn(rest) => (if own.Held? then [DoRelease(own.permit)] else []) + CallsOf(rest, own)
    case ReleasePermit(k, rest) => [DoRelease(k)] + CallsOf(rest, own)
    case CancelTicket(t, rest) => [DoCancel(t)] + CallsOf(rest, own)
    case AcquireAgain(p, g, t, rest) => [DoAcquire(p, g, t)] + CallsOf(rest, own)
  }

  /** How a callback ends, after its calls. */
  function End(c: Script): (e: Script)
    ensures e == Return || e == Throw
  {
    match c
    case Return => c
    case Throw => c
    case ReleaseOwn(rest) => End(rest)
    case ReleasePermit(_, rest) => End(rest)
    case CancelTicket(_, rest) => End(rest)
    case AcquireAgain(_, _, _, rest) => End(rest)
  }

  lemma {:induction false} ThrowsAtEnd(c: Script)
    ensures Throws(c) <==> End(c) == Throw
  {
    match c
    case Return =>
    case Throw =>
    case ReleaseOwn(rest) => ThrowsAtEnd(rest);
    case ReleasePermit(_, rest) => ThrowsAtEnd(rest);
    case CancelTicket(_, rest) => ThrowsAtEnd(rest);
    case AcquireAgain(_, _, _, rest) => ThrowsAtEnd(rest);
  }

  /** Calls made one after the other from outside. */
  function Calls(cfg: Config, s: State, calls: seq<Call>): State
    decreases |calls|
  {
    if calls == [] then s else Calls(cfg, Apply(cfg, s, calls[0]), calls[1..])
  }

  lemma Prepend(cfg: Config, s: State, call: Call, rest: seq<Call>)
    ensures Calls(cfg, s, [call] + rest) == Calls(cfg, Apply(cfg, s, call), rest)
  {
    assert ([call] + rest)[1..] == rest;
  }

  lemma {:induction false} CallsConcat(cfg: Config, s: State, a: seq<Call>, b: seq<Call>)
    ensures Calls(cfg, s, a + b) == Calls(cfg, Calls(cfg, s, a), b)
    decreases |a|
  {
    if a == [] {
      assert a + b == b;
    } else {
      assert (a + b)[1..] == a[1..] + b;
      CallsConcat(cfg, Apply(cfg, s, a[0]), a[1..], b);
    }
  }

  /** What a callback calls has the effect it would have from outside, in the same order. */
  lemma {:induction false} CallbackIsItsCalls(cfg: Config, s: State, c: Script, own: Held)
    ensures RunScript(cfg, s, c, own) == Calls(cfg, s, CallsOf(c, own))
    decreases c
  {
    match c
    case Return =>
    case Throw =>
    case ReleaseOwn(rest) =>
      CallbackIsItsCalls(cfg, if own.Held? then Release(cfg, s, own.permit) else s, rest, own);
      if own.Held? {
        Prepend(cfg, s, DoRelease(own.permit), CallsOf(rest, own));
      } else {
        assert [] + CallsOf(rest, own) == CallsOf(rest, own);
      }
    case ReleasePermit(k, rest) =>
      CallbackIsItsCalls(cfg, Release(cfg, s, k), rest, own);
      Prepend(cfg, s, DoRelease(k), CallsOf(rest, own));
    case CancelTicket(t, rest) =>
      CallbackIsItsCalls(cfg, Cancel(s, t), rest, own);
      Prepend(cfg, s, DoCancel(t), CallsOf(rest, own));
    case AcquireAgain(p, g, t, rest) =>
      CallbackIsItsCalls(cfg, Acquire(cfg, s, p, g, t), rest, own);
      Prepend(cfg, s, DoAcquire(p, g, t), CallsOf(rest, own));
  }

  /** Calls keep the invariant, so every state below is one of a run. */
  lemma {:induction false} CallsKeep(cfg: Config, s: State, calls: seq<Call>)
    requires Inv(cfg, s)
    ensures Inv(cfg, Calls(cfg, s, calls))
    decreases |calls|
  {
    if calls != [] {
      ApplyKeeps(cfg, s, calls[0]);
      CallsKeep(cfg, Apply(cfg, s, calls[0]), calls[1..]);
    }
  }

  // ------------------------------------------------------------------ acquire

  lemma FitsIsRoom(cfg: Config, s: State, p: Provider)
    requires RunningExact(cfg, s)
    ensures Fits(cfg, s.live, p) <==> CanRunNow(cfg, s, p)
  {
  }

  /** A permit when one fits, else a place at the end of the queue with both callbacks, else a
      rejection that is counted; and nothing else. */
  lemma AcquireDoes(cfg: Config, s: State, p: Provider, onGrant: Script, onTimeout: Script)
    requires Inv(cfg, s)
    ensures var t := Acquire(cfg, s, p, onGrant, onTimeout);
      match AcquireResult(cfg, s, p)
      case Admitted(k) =>
        Fits(cfg, s.live, p) && k !in s.live
        && t.live == s.live[k := p] && t.queue == s.queue && t.rejected == s.rejected
      case Waiting(ticket) =>
        !Fits(cfg, s.live, p) && |s.queue| < cfg.maxQueued
        && (forall i | 0 <= i < |s.queue| :: s.queue[i].ticket != ticket)
        && t.live == s.live && t.queue == s.queue + [Entry(ticket, p, onGrant, onTimeout)] && t.rejected == s.rejected
      case Rejected =>
        !Fits(cfg, s.live, p) && |s.queue| == cfg.maxQueued
        && t.live == s.live && t.queue == s.queue && t.rejected == s.rejected + 1
  {
    FitsIsRoom(cfg, s, p);
  }

  // ------------------------------------------------------------------ leaving the queue

  /** x is s without the waiter at i, who got no permit; `e` is what is recorded of it. */
  ghost predicate Left(cfg: Config, s: State, i: nat, x: State, e: Event) {
    && i < |s.queue| && Inv(cfg, x)
    && x.queue == Without(s.queue, i) && x.live == s.live && x.log == s.log + [e]
    && x.rejected == s.rejected && x.nextTicket == s.nextTicket
  }

  /** A cancelled waiter leaves, and no other; a ticket that does not wait changes nothing. */
  lemma CancelDoes(cfg: Config, s: State, ticket: nat)
    requires Inv(cfg, s)
    ensures (forall i | 0 <= i < |s.queue| :: s.queue[i].ticket != ticket) ==> Cancel(s, ticket) == s
    ensures forall i: nat | i < |s.queue| && s.queue[i].ticket == ticket ::
              Left(cfg, s, i, Cancel(s, ticket), Cancelled(ticket)) && Cancel(s, ticket).timedOut == s.timedOut
  {
    CancelKeeps(cfg, s, ticket);
  }

  /** A waiter whose timer fires leaves, is counted, and then its timeout callback runs. */
  lemma TimerDoes(cfg: Config, s: State, i: nat)
    requires Inv(cfg, s) && i < |s.queue|
    ensures exists x ::
              Left(cfg, s, i, x, TimedOut(s.queue[i].ticket)) && x.timedOut == s.timedOut + 1
              && FireTimer(cfg, s, s.queue[i].ticket) == Calls(cfg, x, CallsOf(s.queue[i].onTimeout, Nothing))
  {
    var x := Expire(s, i);
    assert IndexOf(s.queue, s.queue[i].ticket) == i;
    ExpireKeeps(cfg, s, i);
    CallbackIsItsCalls(cfg, x, s.queue[i].onTimeout, Nothing);
    assert Left(cfg, s, i, x, TimedOut(s.queue[i].ticket));
  }

  lemma LateTimerDoes(cfg: Config, s: State, ticket: nat)
    requires forall i | 0 <= i < |s.queue| :: s.queue[i].ticket != ticket
    ensures FireTimer(cfg, s, ticket) == s
  {
  }

  // ------------------------------------------------------------------ release

  /** The first waiter a permit fits for, once `live` is what is held. */
  ghost predicate FirstFit(cfg: Config, s: State, live: map<nat, Provider>, i: nat) {
    && i < |s.queue| && Fits(cfg, live, s.queue[i].provider)
    && forall j | 0 <= j < i :: !Fits(cfg, live, s.queue[j].provider)
  }

  /** x is s with the permit handed over to the waiter at i, as the new permit n. */
  ghost predicate HandedOver(cfg: Config, s: State, permit: nat, i: nat, x: State, n: nat) {
    && i < |s.queue| && Inv(cfg, x) && n !in s.live
    && x.live == (s.live - {permit})[n := s.queue[i].provider] && x.queue == Without(s.queue, i)
    && x.log == s.log + [Granted(s.queue[i].ticket, s.queue[i].provider)]
    && x.rejected == s.rejected && x.timedOut == s.timedOut && x.nextTicket == s.nextTicket
  }

  /** With nobody to hand the permit to, it is given back: both counts drop by one, and nothing else
      changes. */
  lemma ReleaseGivesBack(cfg: Config, s: State, permit: nat)
    requires Inv(cfg, s) && permit in s.live
    requires forall i | 0 <= i < |s.queue| :: !Fits(cfg, s.live - {permit}, s.queue[i].provider)
    ensures var t, p := Release(cfg, s, permit), s.live[permit];
      && t == s.(running := t.running, byProvider := t.byProvider, live := s.live - {permit})
      && t.running == s.running - 1
      && (forall q :: GetOr(t.byProvider, q, 0) == GetOr(s.byProvider, q, 0) - if q == p then 1 else 0)
  {
    var g := GiveBack(s, permit);
    GiveBackKeeps(cfg, s, permit);
    ReleaseIsOneHandover(cfg, s, permit);
    forall i | 0 <= i < |g.queue| ensures !CanRunNow(cfg, g, g.queue[i].provider) {
      FitsIsRoom(cfg, g, g.queue[i].provider);
    }
    assert FirstRunnable(cfg, g, 0) == |g.queue|;
    forall q ensures GetOr(g.byProvider, q, 0) == GetOr(s.byProvider, q, 0) - if q == s.live[permit] then 1 else 0 {
      HoldersDrop(s.live, permit, q);
    }
  }

  /** Otherwise the first waiter it fits for gets it, and then that waiter's callback runs; a callback
      that throws gives its permit back. */
  lemma ReleaseHandsOver(cfg: Config, s: State, permit: nat, i: nat)
    requires Inv(cfg, s) && permit in s.live && FirstFit(cfg, s, s.live - {permit}, i)
    ensures exists x, n ::
              HandedOver(cfg, s, permit, i, x, n)
              && Release(cfg, s, permit) == Calls(cfg, x, GrantCalls(s.queue[i].onGrant, n))
  {
    var g := GiveBack(s, permit);
    GiveBackKeeps(cfg, s, permit);
    forall j | 0 <= j < |g.queue|
      ensures CanRunNow(cfg, g, g.queue[j].provider) <==> Fits(cfg, g.live, s.queue[j].provider)
    {
      FitsIsRoom(cfg, g, g.queue[j].provider);
    }
    assert FirstRunnable(cfg, g, 0) == i;
    ReleaseIsOneHandover(cfg, s, permit);
    HandoverKeeps(cfg, s, permit);
    var x, n := Dequeue(g, i), s.nextPermit;
    GrantIsItsCalls(cfg, g, i);
    assert HandedOver(cfg, s, permit, i, x, n);
  }

  function GrantCalls(onGrant: Script, n: nat): seq<Call> {
    CallsOf(onGrant, Held(n)) + if End(onGrant) == Throw then [DoRelease(n)] else []
  }

  lemma GrantIsItsCalls(cfg: Config, s: State, k: nat)
    requires k < |s.queue|
    ensures GrantAt(cfg, s, k) == Calls(cfg, Dequeue(s, k), GrantCalls(s.queue[k].onGrant, s.nextPermit))
  {
    var c, n, x := s.queue[k].onGrant, s.nextPermit, Dequeue(s, k);
    WeightRemove(s, k);
    CallbackIsItsCalls(cfg, x, c, Held(n));
    ThrowsAtEnd(c);
    CallsConcat(cfg, x, CallsOf(c, Held(n)), if End(c) == Throw then [DoRelease(n)] else []);
    if Throws(c) { Prepend(cfg, RunScript(cfg, x, c, Held(n)), DoRelease(n), []); }
  }

  /** A second release of the same permit changes nothing. */
  lemma ReleaseTwice(cfg: Config, s: State, permit: nat)
    requires permit !in s.live
    ensures Release(cfg, s, permit) == s
  {
  }

  /** A released permit is gone, whatever the callbacks it sets off do. */
  lemma ReleaseFrees(cfg: Config, s: State, permit: nat)
    requires Inv(cfg, s) && permit in s.live
    ensures permit !in Release(cfg, s, permit).live
  {
    var P := (t: State) => Inv(cfg, t) && permit !in t.live && permit < t.nextPermit;
    var g := GiveBack(s, permit);
    var k := FirstRunnable(cfg, g, 0);
    GiveBackKeeps(cfg, s, permit);
    ReleaseIsOneHandover(cfg, s, permit);
    if k < |g.queue| {
      HandoverKeeps(cfg, s, permit);
      StaysFreed(cfg, permit);
      GrantAtPreserves(cfg, P, g, k);
    }
  }

  lemma HandoverStaysFreed(cfg: Config, s: State, k: nat, permit: nat)
    requires Inv(cfg, s) && k in s.live && permit !in s.live && permit < s.nextPermit
    ensures var t := Handover(cfg, s, k); Inv(cfg, t) && permit !in t.live && permit < t.nextPermit
  {
    HandoverKeeps(cfg, s, k);
  }

  lemma AcquireStaysFreed(cfg: Config, s: State, p: Provider, g: Script, t: Script, permit: nat)
    requires Inv(cfg, s) && permit !in s.live && permit < s.nextPermit
    ensures var u := Acquire(cfg, s, p, g, t); Inv(cfg, u) && permit !in u.live && permit < u.nextPermit
  {
    AcquireKeeps(cfg, s, p, g, t);
  }

  lemma CancelStaysFreed(cfg: Config, s: State, ticket: nat, permit: nat)
    requires Inv(cfg, s) && permit !in s.live && permit < s.nextPermit
    ensures var u := Cancel(s, ticket); Inv(cfg, u) && permit !in u.live && permit < u.nextPermit
  {
    CancelKeeps(cfg, s, ticket);
  }

  lemma StaysFreed(cfg: Config, permit: nat)
    ensures Closed(cfg, (t: State) => Inv(cfg, t) && permit !in t.live && permit < t.nextPermit)
  {
    var P := (t: State) => Inv(cfg, t) && permit !in t.live && permit < t.nextPermit;
    forall s, k | P(s) && k in s.live ensures P(Handover(cfg, s, k)) { HandoverStaysFreed(cfg, s, k, permit); }
    forall s, ticket | P(s) ensures P(Cancel(s, ticket)) { CancelStaysFreed(cfg, s, ticket, permit); }
    forall s, p, g, t | P(s) ensures P(Acquire(cfg, s, p, g, t)) { AcquireStaysFreed(cfg, s, p, g, t, permit); }
    assert forall s | P(s) :: Quiet(cfg, s);
  }
}
