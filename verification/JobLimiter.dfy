/** The limiter as the program runs it: counters, maps and a queue changed in place, with a pump
    that is re-entered from the callbacks it fires. */
module JobLimiter {
  import opened LimiterSpec
  import LimiterProofs

  lemma IndexOfTicketAt(q: seq<Entry>, k: nat)
    requires k < |q| && forall i, j :: 0 <= i < j < |q| ==> q[i].ticket < q[j].ticket
    ensures IndexOf(q, q[k].ticket) == k
  {
    var i := IndexOf(q, q[k].ticket);
    assert i <= k;
  }

  /** Tickets rise along the queue and have all been issued. */
  predicate InOrder(q: seq<Entry>, issued: nat) {
    && (forall i, j :: 0 <= i < j < |q| ==> q[i].ticket < q[j].ticket)
    && (forall i :: 0 <= i < |q| ==> q[i].ticket < issued)
  }

  lemma RemovalKeepsOrder(q: seq<Entry>, k: nat, issued: nat)
    requires InOrder(q, issued) && k < |q|
    ensures InOrder(q[..k] + q[k + 1..], issued)
  {
    var r := q[..k] + q[k + 1..];
    assert forall i :: 0 <= i < |r| ==> r[i] == q[if i < k then i else i + 1];
  }

  class JobLimiter {
    const cfg: Config
    var runningGlobal: int
    var runningByProvider: map<Provider, int>
    var queue: seq<Entry>
    var queuedByProvider: map<Provider, int>
    var rejectedCount: nat
    var timedOutCount: nat
    var unreleased: map<nat, Provider>  // permits whose `released` flag is false
    var permitsIssued: nat
    var ticketsIssued: nat
    ghost var log: seq<Event>

    ghost predicate Valid()
      reads this
    {
      InOrder(queue, ticketsIssued)
    }

    ghost function View(): State
      reads this
    {
      State(runningGlobal, runningByProvider, queue, queuedByProvider, rejectedCount, timedOutCount,
            unreleased, permitsIssued, ticketsIssued, log)
    }

    constructor (cfg: Config)
      ensures Valid() && this.cfg == cfg && View() == EMPTY
    {
      this.cfg := cfg;
      runningGlobal, runningByProvider, queue, queuedByProvider := 0, map[], [], map[];
      rejectedCount, timedOutCount, unreleased, permitsIssued, ticketsIssued := 0, 0, map[], 0, 0;
      log := [];
    }

    predicate HasRoom(p: Provider)
      reads this
    {
      && runningGlobal < cfg.maxRunning
      && GetOr(runningByProvider, p, 0) < cfg.maxRunningPerProvider
    }

    method GrantPermit(p: Provider) returns (permit: nat)
      requires Valid()
      modifies this
      ensures Valid() && View() == Grant(old(View()), p) && permit == old(permitsIssued)
    {
      runningGlobal := runningGlobal + 1;
      runningByProvider := runningByProvider[p := GetOr(runningByProvider, p, 0) + 1];
      permit := permitsIssued;
      unreleased := unreleased[permit := p];
      permitsIssued := permitsIssued + 1;
    }

    method FindEntry(ticket: nat) returns (idx: nat)
      ensures idx == IndexOf(queue, ticket)
    {
      idx := 0;
      while idx < |queue| && queue[idx].ticket != ticket
        invariant idx <= |queue| && forall j :: 0 <= j < idx ==> queue[j].ticket != ticket
      {
        idx := idx + 1;
      }
    }

    /** Take one ticket out of the queue; false when it is no longer there. */
    method RemoveEntry(ticket: nat) returns (removed: bool)
      requires Valid()
      modifies this`queue, this`queuedByProvider
      ensures Valid()
      ensures removed <==> IndexOf(old(queue), ticket) < |old(queue)|
      ensures View() == if removed then RemoveAt(old(View()), IndexOf(old(queue), ticket)) else old(View())
    {
      var idx := FindEntry(ticket);
      if idx == |queue| { return false; }
      RemovalKeepsOrder(queue, idx, ticketsIssued);
      var p := queue[idx].provider;
      queue := queue[..idx] + queue[idx + 1..];
      var n := GetOr(queuedByProvider, p, 1) - 1;
      if n <= 0 {
        queuedByProvider := queuedByProvider - {p};
      } else {
        queuedByProvider := queuedByProvider[p := n];
      }
      removed := true;
    }

    method Acquire(p: Provider, onGrant: Script, onTimeout: Script) returns (a: Admission)
      requires Valid()
      modifies this
      ensures Valid()
      ensures View() == LimiterSpec.Acquire(cfg, old(View()), p, onGrant, onTimeout)
      ensures a == AcquireResult(cfg, old(View()), p)
    {
      if HasRoom(p) {
        ghost var overtook := Waits(queue, p);
        var permit := GrantPermit(p);
        log := log + [Immediate(p, overtook)];
        return Admitted(permit);
      }
      if |queue| >= cfg.maxQueued {
        rejectedCount := rejectedCount + 1;
        return Rejected;
      }
      queue := queue + [Entry(ticketsIssued, p, onGrant, onTimeout)];
      queuedByProvider := queuedByProvider[p := GetOr(queuedByProvider, p, 0) + 1];
      a := Waiting(ticketsIssued);
      ticketsIssued := ticketsIssued + 1;
    }

    /** The `cancel` closure: true iff the entry was still queued. */
    method Cancel(ticket: nat) returns (removed: bool)
      requires Valid()
      modifies this
      ensures Valid() && View() == LimiterSpec.Cancel(old(View()), ticket)
      ensures removed <==> exists i :: 0 <= i < |old(queue)| && old(queue)[i].ticket == ticket
    {
      removed := RemoveEntry(ticket);
      if removed { log := log + [Cancelled(ticket)]; }
    }

    /** The queue-wait timer of one entry. */
    method FireTimer(ticket: nat)
      requires Valid()
      modifies this
      ensures Valid() && View() == LimiterSpec.FireTimer(cfg, old(View()), ticket)
    {
      var k := IndexOf(queue, ticket);
      if k < |queue| {
        var onTimeout := queue[k].onTimeout;
        var _ := RemoveEntry(ticket);
        timedOutCount := timedOutCount + 1;
        log := log + [TimedOut(ticket)];
        assert View() == Expire(old(View()), k);
        RunCallback(onTimeout, Nothing);
      }
    }

    /** `permit.release()`. */
    method ReleasePermit(permit: nat)
      requires Valid()
      modifies this
      ensures Valid() && View() == Release(cfg, old(View()), permit)
      decreases Weight(queue), 2
    {
      if permit !in unreleased { return; }
      var p := unreleased[permit];
      unreleased := unreleased - {permit};
      runningGlobal := if runningGlobal - 1 < 0 then 0 else runningGlobal - 1;
      var n := GetOr(runningByProvider, p, 1) - 1;
      if n <= 0 {
        runningByProvider := runningByProvider - {p};
      } else {
        runningByProvider := runningByProvider[p := n];
      }
      assert View() == GiveBack(old(View()), permit);
      PumpQueue();
    }

    /** Scan from the front, grant the first runnable waiter, fire its callback, start again. */
    method PumpQueue()
      requires Valid()
      modifies this
      ensures Valid() && View() == Pump(cfg, old(View()))
      decreases Weight(queue), 1
    {
      var progressed := true;
      while progressed
        invariant Valid() && Pump(cfg, View()) == Pump(cfg, old(View()))
        invariant Weight(queue) <= old(Weight(queue))
        invariant !progressed ==> FirstRunnable(cfg, View(), 0) == |queue|
        decreases Weight(queue), progressed
      {
        progressed := false;
        ghost var before := View();
        for i := 0 to |queue|
          invariant !progressed && View() == before && Valid()
          invariant forall j :: 0 <= j < i ==> !CanRunNow(cfg, before, before.queue[j].provider)
        {
          if !HasRoom(queue[i].provider) { continue; }
          assert FirstRunnable(cfg, before, 0) == i;
          GrantEntry(i);
          progressed := true;
          break;
        }
      }
    }

    /** The body of the scan: entry i leaves the queue, gets a permit and has its callback fired; a
        callback that throws loses the permit again. */
    method GrantEntry(i: nat)
      requires Valid() && i < |queue|
      modifies this
      ensures Valid() && View() == GrantAt(cfg, old(View()), i)
      decreases Weight(queue), 0
    {
      var entry := queue[i];
      IndexOfTicketAt(queue, i);
      WeightRemove(View(), i);
      var _ := RemoveEntry(entry.ticket);
      var permit := GrantPermit(entry.provider);
      log := log + [Granted(entry.ticket, entry.provider)];
      assert View() == Dequeue(old(View()), i);
      RunCallback(entry.onGrant, Held(permit));
      if Throws(entry.onGrant) {
        ReleasePermit(permit);
      }
    }

    /** The synchronous part of a caller's callback. */
    method RunCallback(c: Script, own: Held)
      requires Valid()
      modifies this
      ensures Valid() && View() == RunScript(cfg, old(View()), c, own)
      decreases Weight(queue) + Size(c), 0
    {
      match c {
        case Return =>
        case Throw =>
        case ReleaseOwn(rest) =>
          if own.Held? { ReleasePermit(own.permit); }
          RunCallback(rest, own);
        case ReleasePermit(k, rest) =>
          ReleasePermit(k);
          RunCallback(rest, own);
        case CancelTicket(t, rest) =>
          if IndexOf(queue, t) < |queue| { WeightRemove(View(), IndexOf(queue, t)); }
          var _ := Cancel(t);
          RunCallback(rest, own);
        case AcquireAgain(p, g, t, rest) =>
          WeightConcat(queue, [Entry(ticketsIssued, p, g, t)]);
          var _ := Acquire(p, g, t);
          RunCallback(rest, own);
      }
    }

    /** The `saturated` field of the snapshot. */
    method SnapshotSaturated() returns (saturated: bool)
      ensures saturated == LimiterProofs.Saturated(cfg, View())
      ensures LimiterProofs.Inv(cfg, View()) ==> (saturated <==> runningGlobal >= cfg.maxRunning || queue != [])
    {
      var hasProviderBackpressure :=
        exists p | p in queuedByProvider :: GetOr(runningByProvider, p, 0) >= cfg.maxRunningPerProvider;
      var queueFullUnderPressure := |queue| > 0 && |queue| >= cfg.maxQueued;
      saturated := runningGlobal >= cfg.maxRunning || hasProviderBackpressure || queueFullUnderPressure;
      if LimiterProofs.Inv(cfg, View()) { LimiterProofs.SaturatedMeans(cfg, View()); }
    }
  }
}
