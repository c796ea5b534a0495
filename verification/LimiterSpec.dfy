/** The running-limit and FIFO-queue scheduler as a pure transition system.

    The callbacks a caller hands to `acquire` are arbitrary code that may call back into the
    limiter before returning.  A callback is represented by the finite list of limiter calls it
    makes and by whether it throws, so that statements "for every script" range over everything
    a callback can do. */
module LimiterSpec {

  datatype Provider = Provider(name: string)

  datatype Config = Config(maxRunning: nat, maxRunningPerProvider: nat, maxQueued: nat)

  /** What one callback does, in order, before it returns or throws. */
  datatype Script =
    | Return
    | Throw
    | ReleaseOwn(rest: Script)
    | ReleasePermit(permit: nat, rest: Script)
    | CancelTicket(ticket: nat, rest: Script)
    | AcquireAgain(provider: Provider, onGrant: Script, onTimeout: Script, rest: Script)

  datatype Entry = Entry(ticket: nat, provider: Provider, onGrant: Script, onTimeout: Script)

  /** The permit handed to the running callback; a timeout callback gets none. */
  datatype Held = Nothing | Held(permit: nat)

  /** How a queued entry left the queue, and the immediate grants that never queued. */
  datatype Event =
    | Granted(ticket: nat, provider: Provider)
    | TimedOut(ticket: nat)
    | Cancelled(ticket: nat)
    | Immediate(provider: Provider, overtook: bool)  // overtook: a waiter of that provider was queued

  datatype State = State(
    running: int,
    byProvider: map<Provider, int>,
    queue: seq<Entry>,
    queuedBy: map<Provider, int>,
    rejected: nat,
    timedOut: nat,
    live: map<nat, Provider>,  // the permits whose `released` flag is still false
    nextPermit: nat,
    nextTicket: nat,
    log: seq<Event>)

  const EMPTY: State := State(0, map[], [], map[], 0, 0, map[], 0, 0, [])

  /** The result of `acquire`. */
  datatype Admission = Admitted(permit: nat) | Waiting(ticket: nat) | Rejected

  // ------------------------------------------------------------------ counters

  function GetOr(m: map<Provider, int>, p: Provider, default: int): int {
    if p in m then m[p] else default
  }

  function Increment(m: map<Provider, int>, p: Provider): map<Provider, int> {
    m[p := GetOr(m, p, 0) + 1]
  }

  function Decrement(m: map<Provider, int>, p: Provider): map<Provider, int> {
    var n := GetOr(m, p, 1) - 1;
    if n <= 0 then m - {p} else m[p := n]
  }

  predicate CanRunNow(cfg: Config, s: State, p: Provider) {
    && s.running < cfg.maxRunning
    && GetOr(s.byProvider, p, 0) < cfg.maxRunningPerProvider
  }

  // ------------------------------------------------------------------ atomic updates

  function Grant(s: State, p: Provider): State {
    s.(running := s.running + 1, byProvider := Increment(s.byProvider, p),
       live := s.live[s.nextPermit := p], nextPermit := s.nextPermit + 1)
  }

  function GiveBack(s: State, permit: nat): State
    requires permit in s.live
  {
    s.(running := if s.running - 1 < 0 then 0 else s.running - 1,
       byProvider := Decrement(s.byProvider, s.live[permit]),
       live := s.live - {permit})
  }

  function RemoveAt(s: State, i: nat): State
    requires i < |s.queue|
  {
    s.(queue := s.queue[..i] + s.queue[i + 1..], queuedBy := Decrement(s.queuedBy, s.queue[i].provider))
  }

  function Logged(s: State, e: Event): State { s.(log := s.log + [e]) }

  /** Index of the first entry from `i` on that satisfies the running limits, or |queue|. */
  function FirstRunnable(cfg: Config, s: State, i: nat): (k: nat)
    requires i <= |s.queue|
    ensures i <= k <= |s.queue|
    ensures k < |s.queue| ==> CanRunNow(cfg, s, s.queue[k].provider)
    ensures forall j :: i <= j < k ==> !CanRunNow(cfg, s, s.queue[j].provider)
    decreases |s.queue| - i
  {
    if i == |s.queue| || CanRunNow(cfg, s, s.queue[i].provider) then i else FirstRunnable(cfg, s, i + 1)
  }

  /** Position of a ticket in the queue, or |queue|. */
  function IndexOf(q: seq<Entry>, ticket: nat): (k: nat)
    ensures k <= |q|
    ensures k < |q| ==> q[k].ticket == ticket
    ensures forall j :: 0 <= j < k ==> q[j].ticket != ticket
  {
    if q == [] || q[0].ticket == ticket then 0 else 1 + IndexOf(q[1..], ticket)
  }

  predicate Waits(q: seq<Entry>, p: Provider) { exists i :: 0 <= i < |q| && q[i].provider == p }

  // ------------------------------------------------------------------ termination measure

  function Size(c: Script): nat {
    match c
    case Return => 1
    case Throw => 1
    case ReleaseOwn(rest) => 1 + Size(rest)
    case ReleasePermit(_, rest) => 1 + Size(rest)
    case CancelTicket(_, rest) => 1 + Size(rest)
    case AcquireAgain(_, g, t, rest) => 2 + Size(g) + Size(t) + Size(rest)
  }

  function Weight(q: seq<Entry>): nat {
    if q == [] then 0 else 1 + Size(q[0].onGrant) + Size(q[0].onTimeout) + Weight(q[1..])
  }

  lemma {:induction false} WeightConcat(a: seq<Entry>, b: seq<Entry>)
    ensures Weight(a + b) == Weight(a) + Weight(b)
  {
    if a == [] {
      assert a + b == b;
    } else {
      assert (a + b)[1..] == a[1..] + b;
      WeightConcat(a[1..], b);
    }
  }

  lemma {:induction false} WeightRemove(s: State, i: nat)
    requires i < |s.queue|
    ensures Weight(RemoveAt(s, i).queue) + 1 + Size(s.queue[i].onGrant) + Size(s.queue[i].onTimeout) == Weight(s.queue)
  {
    var q := s.queue;
    assert q == q[..i] + ([q[i]] + q[i + 1..]);
    WeightConcat(q[..i], [q[i]] + q[i + 1..]);
    WeightConcat(q[..i], q[i + 1..]);
    assert ([q[i]] + q[i + 1..])[1..] == q[i + 1..];
  }

  // ------------------------------------------------------------------ public calls

  /** `acquire`: a permit, a place in the queue, or a rejection. */
  function Acquire(cfg: Config, s: State, p: Provider, onGrant: Script, onTimeout: Script): State {
    if CanRunNow(cfg, s, p) then
      Logged(Grant(s, p), Immediate(p, Waits(s.queue, p)))
    else if |s.queue| >= cfg.maxQueued then
      s.(rejected := s.rejected + 1)
    else
      s.(queue := s.queue + [Entry(s.nextTicket, p, onGrant, onTimeout)],
         queuedBy := Increment(s.queuedBy, p), nextTicket := s.nextTicket + 1)
  }

  function AcquireResult(cfg: Config, s: State, p: Provider): Admission {
    if CanRunNow(cfg, s, p) then Admitted(s.nextPermit)
    else if |s.queue| >= cfg.maxQueued then Rejected
    else Waiting(s.nextTicket)
  }

  /** The `cancel` closure of a queued acquire. */
  function Cancel(s: State, ticket: nat): State {
    var k := IndexOf(s.queue, ticket);
    if k == |s.queue| then s else Logged(RemoveAt(s, k), Cancelled(ticket))
  }

  /** Entry k leaves the queue because its wait timer fired. */
  function Expire(s: State, k: nat): State
    requires k < |s.queue|
  {
    Logged(RemoveAt(s, k), TimedOut(s.queue[k].ticket)).(timedOut := s.timedOut + 1)
  }

  /** The queue-wait timer of one entry. */
  function FireTimer(cfg: Config, s: State, ticket: nat): State {
    var k := IndexOf(s.queue, ticket);
    if k == |s.queue| then s else RunScript(cfg, Expire(s, k), s.queue[k].onTimeout, Nothing)
  }

  /** `permit.release()`: idempotent, then pumps. */
  function Release(cfg: Config, s: State, permit: nat): (r: State)
    ensures Weight(r.queue) <= Weight(s.queue)
    decreases Weight(s.queue), 2
  {
    if permit !in s.live then s else Pump(cfg, GiveBack(s, permit))
  }

  /** Grant waiters, oldest runnable first, until none can run. */
  function Pump(cfg: Config, s: State): (r: State)
    ensures Weight(r.queue) <= Weight(s.queue)
    decreases Weight(s.queue), 1
  {
    var k := FirstRunnable(cfg, s, 0);
    if k == |s.queue| then s
    else
      WeightRemove(s, k);
      Pump(cfg, GrantAt(cfg, s, k))
  }

  /** Entry k leaves the queue with a permit. */
  function Dequeue(s: State, k: nat): State
    requires k < |s.queue|
  {
    var e := s.queue[k];
    Logged(Grant(RemoveAt(s, k), e.provider), Granted(e.ticket, e.provider))
  }

  /** One iteration of the pump: remove entry k, grant it, run its callback, and take the permit
      back if the callback threw. */
  function GrantAt(cfg: Config, s: State, k: nat): (r: State)
    requires k < |s.queue|
    ensures Weight(r.queue) < Weight(s.queue)
    decreases Weight(s.queue), 0
  {
    WeightRemove(s, k);
    var e := s.queue[k];
    var s1 := Dequeue(s, k);
    var s2 := RunScript(cfg, s1, e.onGrant, Held(s.nextPermit));
    if Throws(e.onGrant) then Release(cfg, s2, s.nextPermit) else s2
  }

  predicate Throws(c: Script) {
    match c
    case Return => false
    case Throw => true
    case ReleaseOwn(rest) => Throws(rest)
    case ReleasePermit(_, rest) => Throws(rest)
    case CancelTicket(_, rest) => Throws(rest)
    case AcquireAgain(_, _, _, rest) => Throws(rest)
  }

  /** Run the limiter calls of one callback that was handed `own`. */
  function RunScript(cfg: Config, s: State, c: Script, own: Held): (r: State)
    ensures Weight(r.queue) < Weight(s.queue) + Size(c)
    decreases Weight(s.queue) + Size(c), 0
  {
    match c
    case Return => s
    case Throw => s
    case ReleaseOwn(rest) =>
      RunScript(cfg, if own.Held? then Release(cfg, s, own.permit) else s, rest, own)
    case ReleasePermit(k, rest) => RunScript(cfg, Release(cfg, s, k), rest, own)
    case CancelTicket(t, rest) =>
      var k := IndexOf(s.queue, t);
      if k < |s.queue| then WeightRemove(s, k); RunScript(cfg, Cancel(s, t), rest, own)
      else RunScript(cfg, s, rest, own)
    case AcquireAgain(p, g, t, rest) =>
      WeightConcat(s.queue, [Entry(s.nextTicket, p, g, t)]);
      RunScript(cfg, Acquire(cfg, s, p, g, t), rest, own)
  }

  // ------------------------------------------------------------------ whole runs

  datatype Call =
    | DoAcquire(provider: Provider, onGrant: Script, onTimeout: Script)
    | DoRelease(permit: nat)
    | DoCancel(ticket: nat)
    | DoTimer(ticket: nat)

  function Apply(cfg: Config, s: State, call: Call): State {
    match call
    case DoAcquire(p, g, t) => Acquire(cfg, s, p, g, t)
    case DoRelease(k) => Release(cfg, s, k)
    case DoCancel(t) => Cancel(s, t)
    case DoTimer(t) => FireTimer(cfg, s, t)
  }

  function Run(cfg: Config, calls: seq<Call>): State {
    if calls == [] then EMPTY else Apply(cfg, Run(cfg, calls[..|calls| - 1]), calls[|calls| - 1])
  }
}
