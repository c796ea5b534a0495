/** What every run of the limiter keeps. */
module LimiterProofs {
  import opened LimiterSpec

  // ------------------------------------------------------------------ accounting

  ghost function Holders(live: map<nat, Provider>, p: Provider): set<nat> {
    set k | k in live && live[k] == p
  }

  function CountFor(q: seq<Entry>, p: Provider): nat {
    if q == [] then 0 else (if q[0].provider == p then 1 else 0) + CountFor(q[1..], p)
  }

  function Tickets(q: seq<Entry>): multiset<nat> {
    if q == [] then multiset{} else multiset{q[0].ticket} + Tickets(q[1..])
  }

  function SettledBy(e: Event): multiset<nat> {
    match e
    case Granted(t, _) => multiset{t}
    case TimedOut(t) => multiset{t}
    case Cancelled(t) => multiset{t}
    case Immediate(_, _) => multiset{}
  }

  function Settled(log: seq<Event>): multiset<nat> {
    if log == [] then multiset{} else Settled(log[..|log| - 1]) + SettledBy(log[|log| - 1])
  }

  /** The running counters agree with the unreleased permits, and respect both caps. */
  ghost predicate RunningExact(cfg: Config, s: State) {
    && s.running == |s.live| <= cfg.maxRunning
    && (forall p :: GetOr(s.byProvider, p, 0) == |Holders(s.live, p)| <= cfg.maxRunningPerProvider)
    && (forall p | p in s.byProvider :: s.byProvider[p] > 0)
    && (forall k | k in s.live :: k < s.nextPermit)
  }

  /** The queued counters agree with the queue, which respects its bound. */
  ghost predicate QueuedExact(cfg: Config, s: State) {
    && (forall p :: GetOr(s.queuedBy, p, 0) == CountFor(s.queue, p))
    && (forall p | p in s.queuedBy :: s.queuedBy[p] > 0)
    && |s.queue| <= cfg.maxQueued
  }

  /** Every ticket ever issued is either waiting or settled, exactly once. */
  ghost predicate Conserved(s: State) {
    forall t: nat :: (Tickets(s.queue) + Settled(s.log))[t] == if t < s.nextTicket then 1 else 0
  }

  /** The queue is in arrival order, and a granted waiter of a provider arrived before every
      waiter of that provider granted later or still waiting. */
  ghost predicate Fifo(s: State) {
    && (forall i, j :: 0 <= i < j < |s.queue| ==> s.queue[i].ticket < s.queue[j].ticket)
    && (forall i :: 0 <= i < |s.queue| ==> s.queue[i].ticket < s.nextTicket)
    && (forall i :: 0 <= i < |s.log| && s.log[i].Granted? ==> s.log[i].ticket < s.nextTicket)
    && (forall i, j | 0 <= i < j < |s.log| && s.log[i].Granted? && s.log[j].Granted? ::
          s.log[i].provider == s.log[j].provider ==> s.log[i].ticket < s.log[j].ticket)
    && (forall i, j | 0 <= i < |s.log| && 0 <= j < |s.queue| && s.log[i].Granted? ::
          s.log[i].provider == s.queue[j].provider ==> s.log[i].ticket < s.queue[j].ticket)
  }

  /** No immediate grant ever passed a queued waiter of its provider. */
  ghost predicate NoBarging(s: State) {
    forall i :: 0 <= i < |s.log| && s.log[i].Immediate? ==> !s.log[i].overtook
  }

  /** No waiter could be granted now. */
  predicate Quiet(cfg: Config, s: State) {
    forall i :: 0 <= i < |s.queue| ==> !CanRunNow(cfg, s, s.queue[i].provider)
  }

  ghost predicate Inv(cfg: Config, s: State) {
    && RunningExact(cfg, s) && QueuedExact(cfg, s) && Conserved(s) && Fifo(s) && NoBarging(s)
    && Quiet(cfg, s)
  }

  // ------------------------------------------------------------------ sequence facts

  lemma {:induction false} CountForConcat(a: seq<Entry>, b: seq<Entry>, p: Provider)
    ensures CountFor(a + b, p) == CountFor(a, p) + CountFor(b, p)
  {
    if a == [] {
      assert a + b == b;
    } else {
      assert (a + b)[1..] == a[1..] + b;
      CountForConcat(a[1..], b, p);
    }
  }

  lemma {:induction false} TicketsConcat(a: seq<Entry>, b: seq<Entry>)
    ensures Tickets(a + b) == Tickets(a) + Tickets(b)
  {
    if a == [] {
      assert a + b == b;
    } else {
      assert (a + b)[1..] == a[1..] + b;
      TicketsConcat(a[1..], b);
    }
  }

  lemma CountSplit(q: seq<Entry>, i: nat, p: Provider)
    requires i < |q|
    ensures CountFor(q, p) == CountFor(q[..i] + q[i + 1..], p) + if q[i].provider == p then 1 else 0
  {
    var a, b := q[..i], q[i + 1..];
    assert q == a + ([q[i]] + b);
    CountForConcat(a, [q[i]] + b, p);
    CountForConcat([q[i]], b, p);
    CountForConcat(a, b, p);
  }

  lemma SplitAt(q: seq<Entry>, i: nat)
    requires i < |q|
    ensures q == q[..i] + ([q[i]] + q[i + 1..])
  {
  }

  lemma MoveLast(x: multiset<nat>, m: multiset<nat>, y: multiset<nat>)
    ensures x + (m + y) == x + y + m
  {
  }

  lemma TicketsSplit(q: seq<Entry>, i: nat)
    requires i < |q|
    ensures Tickets(q) == Tickets(q[..i] + q[i + 1..]) + multiset{q[i].ticket}
  {
    SplitAt(q, i);
    TicketsConcat(q[..i], [q[i]] + q[i + 1..]);
    TicketsCons(q[i], q[i + 1..]);
    TicketsConcat(q[..i], q[i + 1..]);
    MoveLast(Tickets(q[..i]), multiset{q[i].ticket}, Tickets(q[i + 1..]));
  }

  lemma TicketsCons(e: Entry, b: seq<Entry>)
    ensures Tickets([e] + b) == multiset{e.ticket} + Tickets(b)
  {
    assert ([e] + b)[1..] == b;
  }

  // ------------------------------------------------------------------ one lemma per atomic update

  lemma HoldersAdd(live: map<nat, Provider>, k: nat, p: Provider, q: Provider)
    requires k !in live
    ensures |Holders(live[k := p], q)| == |Holders(live, q)| + if q == p then 1 else 0
  {
    if q == p {
      assert Holders(live[k := p], q) == Holders(live, q) + {k};
    } else {
      assert Holders(live[k := p], q) == Holders(live, q);
    }
  }

  lemma HoldersDrop(live: map<nat, Provider>, k: nat, q: Provider)
    requires k in live
    ensures |Holders(live - {k}, q)| == |Holders(live, q)| - if q == live[k] then 1 else 0
  {
    if q == live[k] {
      assert Holders(live - {k}, q) == Holders(live, q) - {k};
    } else {
      assert Holders(live - {k}, q) == Holders(live, q);
    }
  }

  lemma GrantKeeps(cfg: Config, s: State, p: Provider)
    requires RunningExact(cfg, s) && CanRunNow(cfg, s, p)
    ensures RunningExact(cfg, Grant(s, p))
  {
    var r := Grant(s, p);
    forall q
      ensures GetOr(r.byProvider, q, 0) == |Holders(r.live, q)| <= cfg.maxRunningPerProvider
    {
      HoldersAdd(s.live, s.nextPermit, p, q);
    }
    assert r.live.Keys == s.live.Keys + {s.nextPermit};
  }

  lemma GiveBackKeeps(cfg: Config, s: State, permit: nat)
    requires RunningExact(cfg, s) && permit in s.live
    ensures RunningExact(cfg, GiveBack(s, permit))
  {
    var r := GiveBack(s, permit);
    assert r.live.Keys == s.live.Keys - {permit};
    forall q
      ensures GetOr(r.byProvider, q, 0) == |Holders(r.live, q)| <= cfg.maxRunningPerProvider
    {
      HoldersDrop(s.live, permit, q);
    }
  }

  lemma RemoveKeeps(cfg: Config, s: State, k: nat)
    requires QueuedExact(cfg, s) && k < |s.queue|
    ensures QueuedExact(cfg, RemoveAt(s, k))
  {
    var r := RemoveAt(s, k);
    CountSplit(s.queue, k, s.queue[k].provider);
    forall q
      ensures GetOr(r.queuedBy, q, 0) == CountFor(r.queue, q)
    {
      CountSplit(s.queue, k, q);
    }
  }

  lemma SettleKeeps(s: State, k: nat, e: Event)
    requires Conserved(s) && k < |s.queue| && SettledBy(e) == multiset{s.queue[k].ticket}
    ensures Conserved(Logged(RemoveAt(s, k), e))
  {
    var r := Logged(RemoveAt(s, k), e);
    TicketsSplit(s.queue, k);
    assert r.log[..|r.log| - 1] == s.log;
    assert Tickets(r.queue) + Settled(r.log) == Tickets(s.queue) + Settled(s.log);
  }

  lemma RemoveKeepsFifo(s: State, k: nat)
    requires Fifo(s) && k < |s.queue|
    ensures Fifo(RemoveAt(s, k))
  {
    var q, r := s.queue, RemoveAt(s, k).queue;
    assert forall i :: 0 <= i < |r| ==> r[i] == q[if i < k then i else i + 1];
  }

  lemma LogKeepsFifo(s: State, e: Event)
    requires Fifo(s) && !e.Granted?
    ensures Fifo(Logged(s, e))
  {
    var r := Logged(s, e);
    assert forall i :: 0 <= i < |r.log| && r.log[i].Granted? ==> i < |s.log| && r.log[i] == s.log[i];
  }

  lemma DequeueKeepsFifo(s: State, k: nat)
    requires Fifo(s) && k < |s.queue|
    requires forall j :: 0 <= j < k ==> s.queue[j].provider != s.queue[k].provider
    ensures Fifo(Dequeue(s, k))
  {
    var e := s.queue[k];
    RemoveKeepsFifo(s, k);
    var q, r := s.queue, RemoveAt(s, k).queue;
    assert forall i :: 0 <= i < |r| ==> r[i] == q[if i < k then i else i + 1];
    var n := Dequeue(s, k);
    assert forall i :: 0 <= i < |n.log| ==> n.log[i] == if i < |s.log| then s.log[i] else Granted(e.ticket, e.provider);
  }

  lemma EnqueueKeeps(cfg: Config, s: State, p: Provider, g: Script, t: Script)
    requires QueuedExact(cfg, s) && |s.queue| < cfg.maxQueued && !CanRunNow(cfg, s, p)
    ensures QueuedExact(cfg, Acquire(cfg, s, p, g, t))
  {
    var r := Acquire(cfg, s, p, g, t);
    forall q
      ensures GetOr(r.queuedBy, q, 0) == CountFor(r.queue, q)
    {
      CountForConcat(s.queue, [Entry(s.nextTicket, p, g, t)], q);
    }
  }

  lemma EnqueueConserves(cfg: Config, s: State, p: Provider, g: Script, t: Script)
    requires Conserved(s) && |s.queue| < cfg.maxQueued && !CanRunNow(cfg, s, p)
    ensures Conserved(Acquire(cfg, s, p, g, t))
  {
    var r := Acquire(cfg, s, p, g, t);
    var e := Entry(s.nextTicket, p, g, t);
    var before, after := Tickets(s.queue) + Settled(s.log), Tickets(r.queue) + Settled(r.log);
    assert after == before + multiset{s.nextTicket} by {
      TicketsConcat(s.queue, [e]);
      TicketsCons(e, []);
      assert [e] + [] == [e];
      MoveLast(Tickets(s.queue), multiset{s.nextTicket}, Settled(s.log));
    }
    forall k: nat ensures after[k] == if k < r.nextTicket then 1 else 0 {
      assert after[k] == before[k] + if k == s.nextTicket then 1 else 0;
      assert before[k] == if k < s.nextTicket then 1 else 0;
    }
  }

  lemma LogImmediateKeeps(s: State, e: Event)
    requires Conserved(s) && Fifo(s) && NoBarging(s) && e.Immediate? && !e.overtook
    ensures Conserved(Logged(s, e)) && Fifo(Logged(s, e)) && NoBarging(Logged(s, e))
  {
    LogKeepsFifo(s, e);
    assert Logged(s, e).log[..|s.log|] == s.log;
    assert Settled(Logged(s, e).log) == Settled(s.log);
  }

  lemma AdmitKeeps(cfg: Config, s: State, p: Provider)
    requires Inv(cfg, s) && CanRunNow(cfg, s, p)
    ensures Inv(cfg, Logged(Grant(s, p), Immediate(p, Waits(s.queue, p))))
  {
    GrantKeeps(cfg, s, p);
    LogImmediateKeeps(Grant(s, p), Immediate(p, Waits(s.queue, p)));
  }

  lemma EnqueueKeepsOrder(cfg: Config, s: State, p: Provider, g: Script, t: Script)
    requires Fifo(s) && Quiet(cfg, s) && |s.queue| < cfg.maxQueued && !CanRunNow(cfg, s, p)
    ensures Fifo(Acquire(cfg, s, p, g, t)) && Quiet(cfg, Acquire(cfg, s, p, g, t))
  {
    var r := Acquire(cfg, s, p, g, t);
    var e := Entry(s.nextTicket, p, g, t);
    assert forall i :: 0 <= i < |r.queue| ==> r.queue[i] == if i < |s.queue| then s.queue[i] else e;
    assert r.log == s.log;
  }

  lemma WaitKeeps(cfg: Config, s: State, p: Provider, g: Script, t: Script)
    requires Inv(cfg, s) && |s.queue| < cfg.maxQueued && !CanRunNow(cfg, s, p)
    ensures Inv(cfg, Acquire(cfg, s, p, g, t))
  {
    var r := Acquire(cfg, s, p, g, t);
    EnqueueKeeps(cfg, s, p, g, t);
    EnqueueConserves(cfg, s, p, g, t);
    EnqueueKeepsOrder(cfg, s, p, g, t);
    assert NoBarging(r) by { assert r.log == s.log; }
  }

  lemma AcquireKeeps(cfg: Config, s: State, p: Provider, g: Script, t: Script)
    requires Inv(cfg, s)
    ensures Inv(cfg, Acquire(cfg, s, p, g, t))
  {
    if CanRunNow(cfg, s, p) {
      AdmitKeeps(cfg, s, p);
    } else if |s.queue| < cfg.maxQueued {
      WaitKeeps(cfg, s, p, g, t);
    } else {
      var r := Acquire(cfg, s, p, g, t);
      assert Quiet(cfg, r) by { assert forall q :: CanRunNow(cfg, r, q) == CanRunNow(cfg, s, q); }
    }
  }

  lemma RemoveStaysQuiet(cfg: Config, s: State, k: nat)
    requires Quiet(cfg, s) && k < |s.queue|
    ensures Quiet(cfg, RemoveAt(s, k))
  {
    var r := RemoveAt(s, k);
    assert forall i :: 0 <= i < |r.queue| ==> r.queue[i] == s.queue[if i < k then i else i + 1];
  }

  /** Entry k leaves without a grant. */
  lemma LeaveKeeps(cfg: Config, s: State, k: nat, e: Event)
    requires Inv(cfg, s) && k < |s.queue| && (e == Cancelled(s.queue[k].ticket) || e == TimedOut(s.queue[k].ticket))
    ensures Inv(cfg, Logged(RemoveAt(s, k), e))
  {
    RemoveKeeps(cfg, s, k);
    SettleKeeps(s, k, e);
    RemoveKeepsFifo(s, k);
    LogKeepsFifo(RemoveAt(s, k), e);
    RemoveStaysQuiet(cfg, s, k);
  }

  lemma CancelKeeps(cfg: Config, s: State, ticket: nat)
    requires Inv(cfg, s)
    ensures Inv(cfg, Cancel(s, ticket))
  {
    var k := IndexOf(s.queue, ticket);
    if k < |s.queue| { LeaveKeeps(cfg, s, k, Cancelled(ticket)); }
  }

  lemma ExpireKeeps(cfg: Config, s: State, k: nat)
    requires Inv(cfg, s) && k < |s.queue|
    ensures Inv(cfg, Expire(s, k))
  {
    var e := TimedOut(s.queue[k].ticket);
    LeaveKeeps(cfg, s, k, e);
    CountTimeoutKeeps(cfg, Logged(RemoveAt(s, k), e));
  }

  /** The statistics counters are no part of the invariant. */
  lemma CountTimeoutKeeps(cfg: Config, s: State)
    requires Inv(cfg, s)
    ensures Inv(cfg, s.(timedOut := s.timedOut + 1))
  {
    var r := s.(timedOut := s.timedOut + 1);
    assert Quiet(cfg, r) by { assert forall q :: CanRunNow(cfg, r, q) == CanRunNow(cfg, s, q); }
  }

  lemma DequeueKeeps(cfg: Config, s: State, k: nat)
    requires RunningExact(cfg, s) && QueuedExact(cfg, s) && Conserved(s) && Fifo(s) && NoBarging(s)
    requires k == FirstRunnable(cfg, s, 0) < |s.queue|
    ensures var r := Dequeue(s, k);
      RunningExact(cfg, r) && QueuedExact(cfg, r) && Conserved(r) && Fifo(r) && NoBarging(r)
  {
    var e := s.queue[k];
    RemoveKeeps(cfg, s, k);
    assert QueuedExact(cfg, Dequeue(s, k));
    SettleKeeps(s, k, Granted(e.ticket, e.provider));
    assert Conserved(Dequeue(s, k));
    GrantKeeps(cfg, RemoveAt(s, k), e.provider);
    assert RunningExact(cfg, Dequeue(s, k));
    DequeueKeepsFifo(s, k);
  }

  // ------------------------------------------------------------------ one release, one handover

  /** What a release does before any callback runs: the slot goes back, or to the oldest waiter
      that can use it. */
  function Handover(cfg: Config, s: State, permit: nat): State
    requires permit in s.live
  {
    var g := GiveBack(s, permit);
    var k := FirstRunnable(cfg, g, 0);
    if k == |g.queue| then g else Dequeue(g, k)
  }

  /** One freed slot can satisfy one waiter only: after the first grant nobody else can run, so
      the callback of that waiter already finds the limiter quiet. */
  lemma HandoverQuiets(cfg: Config, s: State, permit: nat)
    requires RunningExact(cfg, s) && Quiet(cfg, s) && permit in s.live
    ensures Quiet(cfg, Handover(cfg, s, permit))
  {
    var g := GiveBack(s, permit);
    var k := FirstRunnable(cfg, g, 0);
    if k < |g.queue| {
      var r := Dequeue(g, k);
      assert permit in Holders(s.live, s.live[permit]);
      forall i | 0 <= i < |r.queue|
        ensures !CanRunNow(cfg, r, r.queue[i].provider)
      {
        var j := if i < k then i else i + 1;
        assert r.queue[i] == s.queue[j];
        assert !CanRunNow(cfg, s, s.queue[j].provider) && !CanRunNow(cfg, s, s.queue[k].provider);
      }
    }
  }

  lemma HandoverKeeps(cfg: Config, s: State, permit: nat)
    requires Inv(cfg, s) && permit in s.live
    ensures Inv(cfg, Handover(cfg, s, permit))
  {
    var g := GiveBack(s, permit);
    GiveBackKeeps(cfg, s, permit);
    HandoverQuiets(cfg, s, permit);
    var k := FirstRunnable(cfg, g, 0);
    if k < |g.queue| { DequeueKeeps(cfg, g, k); }
  }

  // ------------------------------------------------------------------ re-entrant calls

  lemma QuietPump(cfg: Config, s: State)
    requires Quiet(cfg, s)
    ensures Pump(cfg, s) == s
  {
    assert FirstRunnable(cfg, s, 0) == |s.queue|;
  }

  /** P implies quiescence and is kept by each of the three updates that a release or a callback
      is made of. */
  ghost predicate Closed(cfg: Config, P: State -> bool) {
    && (forall s | P(s) :: Quiet(cfg, s))
    && (forall s, permit | P(s) && permit in s.live :: P(Handover(cfg, s, permit)))
    && (forall s, ticket | P(s) :: P(Cancel(s, ticket)))
    && (forall s, p, g, t | P(s) :: P(Acquire(cfg, s, p, g, t)))
  }

  /** The induction principle for re-entrancy: what the three updates keep survives a release and
      everything it sets off, however deep the callbacks nest and whether or not they throw. */
  lemma {:induction false} ReleasePreserves(cfg: Config, P: State -> bool, s: State, permit: nat)
    requires Closed(cfg, P) && P(s)
    ensures P(Release(cfg, s, permit))
    decreases Weight(s.queue), 2
  {
    if permit in s.live {
      var g := GiveBack(s, permit);
      var k := FirstRunnable(cfg, g, 0);
      assert P(Handover(cfg, s, permit));
      if k < |g.queue| {
        GrantAtPreserves(cfg, P, g, k);
        QuietPump(cfg, GrantAt(cfg, g, k));
      }
    }
  }

  lemma {:induction false} GrantAtPreserves(cfg: Config, P: State -> bool, s: State, k: nat)
    requires Closed(cfg, P) && k < |s.queue| && P(Dequeue(s, k))
    ensures P(GrantAt(cfg, s, k))
    decreases Weight(s.queue), 0
  {
    WeightRemove(s, k);
    var c := s.queue[k].onGrant;
    ScriptPreserves(cfg, P, Dequeue(s, k), c, Held(s.nextPermit));
    if Throws(c) {
      ReleasePreserves(cfg, P, RunScript(cfg, Dequeue(s, k), c, Held(s.nextPermit)), s.nextPermit);
    }
  }

  lemma {:induction false} ScriptPreserves(cfg: Config, P: State -> bool, s: State, c: Script, own: Held)
    requires Closed(cfg, P) && P(s)
    ensures P(RunScript(cfg, s, c, own))
    decreases Weight(s.queue) + Size(c), 0
  {
    match c
    case Return =>
    case Throw =>
    case ReleaseOwn(rest) =>
      if own.Held? { ReleasePreserves(cfg, P, s, own.permit); }
      ScriptPreserves(cfg, P, if own.Held? then Release(cfg, s, own.permit) else s, rest, own);
    case ReleasePermit(k, rest) =>
      ReleasePreserves(cfg, P, s, k);
      ScriptPreserves(cfg, P, Release(cfg, s, k), rest, own);
    case CancelTicket(t, rest) =>
      var k := IndexOf(s.queue, t);
      if k < |s.queue| { WeightRemove(s, k); }
      ScriptPreserves(cfg, P, Cancel(s, t), rest, own);
    case AcquireAgain(p, g, t, rest) =>
      WeightConcat(s.queue, [Entry(s.nextTicket, p, g, t)]);
      ScriptPreserves(cfg, P, Acquire(cfg, s, p, g, t), rest, own);
  }

  lemma InvClosed(cfg: Config)
    ensures Closed(cfg, s => Inv(cfg, s))
  {
    forall s, permit | Inv(cfg, s) && permit in s.live ensures Inv(cfg, Handover(cfg, s, permit)) {
      HandoverKeeps(cfg, s, permit);
    }
    forall s, ticket | Inv(cfg, s) ensures Inv(cfg, Cancel(s, ticket)) {
      CancelKeeps(cfg, s, ticket);
    }
    forall s, p, g, t | Inv(cfg, s) ensures Inv(cfg, Acquire(cfg, s, p, g, t)) {
      AcquireKeeps(cfg, s, p, g, t);
    }
  }

  // ------------------------------------------------------------------ main results

  lemma ReleaseKeeps(cfg: Config, s: State, permit: nat)
    requires Inv(cfg, s)
    ensures Inv(cfg, Release(cfg, s, permit))
  {
    InvClosed(cfg);
    ReleasePreserves(cfg, s => Inv(cfg, s), s, permit);
  }

  lemma CallbackKeeps(cfg: Config, s: State, c: Script, own: Held)
    requires Inv(cfg, s)
    ensures Inv(cfg, RunScript(cfg, s, c, own))
  {
    InvClosed(cfg);
    ScriptPreserves(cfg, s => Inv(cfg, s), s, c, own);
  }

  lemma TimerKeeps(cfg: Config, s: State, ticket: nat)
    requires Inv(cfg, s)
    ensures Inv(cfg, FireTimer(cfg, s, ticket))
  {
    var k := IndexOf(s.queue, ticket);
    if k < |s.queue| {
      ExpireKeeps(cfg, s, k);
      CallbackKeeps(cfg, Expire(s, k), s.queue[k].onTimeout, Nothing);
    }
  }

  lemma ApplyKeeps(cfg: Config, s: State, call: Call)
    requires Inv(cfg, s)
    ensures Inv(cfg, Apply(cfg, s, call))
  {
    match call
    case DoAcquire(p, g, t) => AcquireKeeps(cfg, s, p, g, t);
    case DoRelease(k) => ReleaseKeeps(cfg, s, k);
    case DoCancel(t) => CancelKeeps(cfg, s, t);
    case DoTimer(t) => TimerKeeps(cfg, s, t);
  }

  /** In every run, whatever the callbacks do: the counters are exact and within the caps, every
      ticket is waiting or settled exactly once, same-provider waiters are granted in arrival
      order, no immediate grant passes a waiter of its provider, and no waiter left in the queue
      is runnable. */
  lemma {:induction false} EveryRun(cfg: Config, calls: seq<Call>)
    ensures Inv(cfg, Run(cfg, calls))
  {
    if calls == [] {
      forall p ensures Holders(map[], p) == {} {}
      assert Settled([]) == multiset{};
    } else {
      EveryRun(cfg, calls[..|calls| - 1]);
      ApplyKeeps(cfg, Run(cfg, calls[..|calls| - 1]), calls[|calls| - 1]);
    }
  }

  /** The second scan of `pump` never grants anybody: a release is one handover followed by the
      callback of the waiter it reached. */
  lemma ReleaseIsOneHandover(cfg: Config, s: State, permit: nat)
    requires Inv(cfg, s) && permit in s.live
    ensures var g := GiveBack(s, permit); var k := FirstRunnable(cfg, g, 0);
      Release(cfg, s, permit) == if k == |g.queue| then g else GrantAt(cfg, g, k)
  {
    var g := GiveBack(s, permit);
    var k := FirstRunnable(cfg, g, 0);
    if k < |g.queue| {
      assert Quiet(cfg, GrantAt(cfg, g, k)) by {
        InvClosed(cfg);
        HandoverKeeps(cfg, s, permit);
        GrantAtPreserves(cfg, s => Inv(cfg, s), g, k);
      }
      QuietPump(cfg, GrantAt(cfg, g, k));
    }
  }

  // ------------------------------------------------------------------ pump against one pass

  /** A single left-to-right pass over the queue that grants whoever fits. */
  function GreedyPass(cfg: Config, s: State, i: nat): State
    requires i <= |s.queue|
    decreases |s.queue| - i
  {
    if i == |s.queue| then s
    else if CanRunNow(cfg, s, s.queue[i].provider) then GreedyPass(cfg, Dequeue(s, i), i)
    else GreedyPass(cfg, s, i + 1)
  }

  predicate Keepers(q: seq<Entry>) { forall i :: 0 <= i < |q| ==> q[i].onGrant.Return? }

  /** From any state whatever, when callbacks keep their permits the restart-from-zero scan grants
      the entries of one greedy pass, in the same order. */
  lemma {:induction false} PumpIsGreedy(cfg: Config, s: State, i: nat)
    requires i <= |s.queue| && Keepers(s.queue)
    requires forall j :: 0 <= j < i ==> !CanRunNow(cfg, s, s.queue[j].provider)
    ensures Pump(cfg, s) == GreedyPass(cfg, s, i)
    decreases |s.queue| - i
  {
    if i == |s.queue| {
    } else if CanRunNow(cfg, s, s.queue[i].provider) {
      assert FirstRunnable(cfg, s, 0) == i;
      var r := Dequeue(s, i);
      assert forall j :: 0 <= j < |r.queue| ==> r.queue[j] == s.queue[if j < i then j else j + 1];
      assert forall j :: 0 <= j < i ==> !CanRunNow(cfg, r, r.queue[j].provider);
      assert GrantAt(cfg, s, i) == r;
      PumpIsGreedy(cfg, r, i);
    } else {
      PumpIsGreedy(cfg, s, i + 1);
    }
  }

  // ------------------------------------------------------------------ the snapshot's saturated flag

  /** The `saturated` field of the snapshot. */
  predicate Saturated(cfg: Config, s: State) {
    || s.running >= cfg.maxRunning
    || (exists p | p in s.queuedBy :: GetOr(s.byProvider, p, 0) >= cfg.maxRunningPerProvider)
    || (|s.queue| > 0 && |s.queue| >= cfg.maxQueued)
  }

  lemma {:induction false} CountPositive(q: seq<Entry>, p: Provider)
    ensures CountFor(q, p) > 0 <==> Waits(q, p)
  {
    if q != [] {
      CountPositive(q[1..], p);
      if q[0].provider != p && Waits(q, p) {
        var i :| 0 <= i < |q| && q[i].provider == p;
        assert q[1..][i - 1].provider == p;
      }
      if Waits(q[1..], p) {
        var i :| 0 <= i < |q[1..]| && q[1..][i].provider == p;
        assert q[i + 1].provider == p;
      }
    }
  }

  /** Between calls the flag says exactly that the global cap is reached or somebody waits. */
  lemma SaturatedMeans(cfg: Config, s: State)
    requires Inv(cfg, s)
    ensures Saturated(cfg, s) <==> s.running >= cfg.maxRunning || s.queue != []
  {
    if s.queue != [] {
      var p := s.queue[0].provider;
      assert Waits(s.queue, p);
      CountPositive(s.queue, p);
      assert p in s.queuedBy;
      assert !CanRunNow(cfg, s, p);
    }
    if p :| p in s.queuedBy && GetOr(s.byProvider, p, 0) >= cfg.maxRunningPerProvider {
      assert CountFor(s.queue, p) > 0;
    }
  }

  /** The flag is not the "a further acquire would have to wait" of its comment: one provider can
      be at its cap with nobody waiting, and another can run while the flag is up. */
  lemma SaturatedIsNotCannotRun()
    ensures exists cfg, calls, p :: !Saturated(cfg, Run(cfg, calls)) && !CanRunNow(cfg, Run(cfg, calls), p)
    ensures exists cfg, calls, p :: Saturated(cfg, Run(cfg, calls)) && CanRunNow(cfg, Run(cfg, calls), p)
  {
    var cfg := Config(2, 1, 1);
    var one := [DoAcquire(Provider("a"), Return, Return)];
    assert one[..0] == [];
    var s1 := Run(cfg, one);
    assert s1 == Acquire(cfg, EMPTY, Provider("a"), Return, Return);
    assert !Saturated(cfg, s1) && !CanRunNow(cfg, s1, Provider("a"));
    var two := one + [DoAcquire(Provider("a"), Return, Return)];
    assert two[..1] == one;
    var s2 := Run(cfg, two);
    assert s2 == Acquire(cfg, s1, Provider("a"), Return, Return);
    assert Provider("b") !in s2.byProvider;
    assert Saturated(cfg, s2) && CanRunNow(cfg, s2, Provider("b"));
  }

  /** The exact condition for the documented meaning of the flag, per provider and in every run. */
  lemma SaturatedAgreesIff(cfg: Config, calls: seq<Call>, p: Provider)
    ensures var s := Run(cfg, calls);
            (Saturated(cfg, s) <==> !CanRunNow(cfg, s, p)) <==>
            (s.running >= cfg.maxRunning || (s.queue != [] <==> GetOr(s.byProvider, p, 0) >= cfg.maxRunningPerProvider))
  {
    EveryRun(cfg, calls);
    SaturatedMeans(cfg, Run(cfg, calls));
  }

  // ------------------------------------------------------------------ sums

  /** The sum of the per-provider counters. */
  ghost function Total(m: map<Provider, int>): int {
    if m == map[] then 0 else
      var p :| p in m;
      m[p] + Total(m - {p})
  }

  lemma {:induction false} TotalSplit(m: map<Provider, int>, p: Provider)
    requires p in m
    ensures Total(m) == m[p] + Total(m - {p})
  {
    var q :| q in m && Total(m) == m[q] + Total(m - {q});
    if q != p {
      TotalSplit(m - {q}, p);
      TotalSplit(m - {p}, q);
      assert (m - {q}) - {p} == (m - {p}) - {q};
    }
  }

  lemma HoldsItsOwn(live: map<nat, Provider>, k: nat)
    requires k in live
    ensures |Holders(live, live[k])| > 0
  {
    assert k in Holders(live, live[k]);
  }

  lemma {:induction false} TotalCounts(live: map<nat, Provider>, m: map<Provider, int>)
    requires forall p :: GetOr(m, p, 0) == |Holders(live, p)|
    ensures Total(m) == |live|
    decreases |m|
  {
    if m == map[] {
      if k :| k in live {
        HoldsItsOwn(live, k);
      }
    } else {
      var p :| p in m;
      var rest := map k | k in live && live[k] != p :: live[k];
      forall q ensures GetOr(m - {p}, q, 0) == |Holders(rest, q)| {
        assert Holders(rest, q) == if q == p then {} else Holders(live, q);
      }
      TotalCounts(rest, m - {p});
      TotalSplit(m, p);
      assert live.Keys == rest.Keys + Holders(live, p);
      assert |live.Keys| == |rest.Keys| + |Holders(live, p)|;
    }
  }

  /** runningGlobal is the sum of runningByProvider, in every run. */
  lemma RunningIsTheSum(cfg: Config, calls: seq<Call>)
    ensures Run(cfg, calls).running == Total(Run(cfg, calls).byProvider) == |Run(cfg, calls).live|
  {
    EveryRun(cfg, calls);
    TotalCounts(Run(cfg, calls).live, Run(cfg, calls).byProvider);
  }
}
