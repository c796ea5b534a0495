/** Who writes a request's two transcript phases, and in what order: a chain of promises that never rejects. */
module FlightOwnership {

  /** A deferred write: the start sink, or the completion sink with one result. */
  datatype Op = StartOp | CompleteOp(result: nat)

  datatype Settling = Pending | Fulfilled | Rejected

  /** The two promises enqueue makes: `run`, which is `after.then(op)`, and the swallowed
      `run.then(IGNORE, IGNORE)`, which becomes the tail. `invoked` says that the sink was called.
      Tails are numbered: 0 is the resolved promise the chain starts from, k + 1 the tail of link k. */
  datatype Link = Link(after: nat, op: Op, invoked: bool, run: Settling, tail: Settling)

  /** What the sinks see. */
  datatype Entry = Began(op: Op) | Ended(op: Op)

  datatype State = State(started: bool, managerOwns: bool, tail: nat, links: seq<Link>, log: seq<Entry>)

  const FRESH := State(false, false, 0, [], [])

  /** The state of tail n. */
  function TailState(links: seq<Link>, n: nat): Settling
    requires n <= |links|
  {
    if n == 0 then Fulfilled else links[n - 1].tail
  }

  function Enqueued(s: State, op: Op): State {
    s.(links := s.links + [Link(s.tail, op, false, Pending, Pending)], tail := |s.links| + 1)
  }

  function StartCalled(s: State): State { if s.started then s else Enqueued(s.(started := true), StartOp) }

  function CompletionCalled(s: State, result: nat): State {
    if s.managerOwns then s else Enqueued(s, CompleteOp(result))
  }

  /** A reaction of link k's run: `then` calls the sink once the promise before it is fulfilled, or
      passes its rejection on; a sink that was called settles with `ok`. */
  function RunReacts(s: State, k: nat, ok: bool): State {
    if k >= |s.links| || s.links[k].run != Pending || s.links[k].after > k then s
    else
      var l := s.links[k];
      if l.invoked then
        s.(links := s.links[k := l.(run := if ok then Fulfilled else Rejected)], log := s.log + [Ended(l.op)])
      else
        match TailState(s.links, l.after)
        case Pending => s
        case Fulfilled => s.(links := s.links[k := l.(invoked := true)], log := s.log + [Began(l.op)])
        case Rejected => s.(links := s.links[k := l.(run := Rejected)])
  }

  /** A reaction of link k's tail, which swallows either outcome. */
  function TailReacts(s: State, k: nat): State {
    if k >= |s.links| || s.links[k].tail != Pending || s.links[k].run == Pending then s
    else s.(links := s.links[k := s.links[k].(tail := Fulfilled)])
  }

  datatype Event =
    | CallStart
    | CallTransfer
    | CallComplete(result: nat)
    | RunReaction(k: nat, ok: bool)
    | TailReaction(k: nat)

  function Apply(s: State, e: Event): State {
    match e
    case CallStart => StartCalled(s)
    case CallTransfer => s.(managerOwns := true)
    case CallComplete(result) => CompletionCalled(s, result)
    case RunReaction(k, ok) => RunReacts(s, k, ok)
    case TailReaction(k) => TailReacts(s, k)
  }

  function Run(es: seq<Event>): State { if es == [] then FRESH else Apply(Run(es[..|es| - 1]), es[|es| - 1]) }

  class Ownership {
    var started: bool
    var managerOwnsCompletion: bool
    var tail: nat
    var links: seq<Link>
    var log: seq<Entry>

    ghost function Model(): State
      reads this
    {
      State(started, managerOwnsCompletion, tail, links, log)
    }

    constructor ()
      ensures Model() == FRESH
    {
      started, managerOwnsCompletion, tail, links, log := false, false, 0, [], [];
    }

    method Enqueue(op: Op) returns (promise: nat)
      modifies this
      ensures Model() == Enqueued(old(Model()), op)
      ensures promise == tail
    {
      links := links + [Link(tail, op, false, Pending, Pending)];
      tail := |links|;
      promise := tail;
    }

    method Start() returns (promise: nat)
      modifies this
      ensures Model() == StartCalled(old(Model()))
      ensures promise == tail
    {
      if started { return tail; }
      started := true;
      promise := Enqueue(StartOp);
    }

    method TransferCompletionToManager()
      modifies this
      ensures Model() == old(Model()).(managerOwns := true)
    {
      managerOwnsCompletion := true;
    }

    method CompleteInline(result: nat) returns (promise: nat)
      modifies this
      ensures Model() == CompletionCalled(old(Model()), result)
      ensures promise == tail
    {
      if managerOwnsCompletion { return tail; }
      promise := Enqueue(CompleteOp(result));
    }
  }

  // ------------------------------------------------------------------ the calls that may write

  /** The writes a request's calls are entitled to: the first start, and each completion requested
      before the manager took over. */
  function Entitled(es: seq<Event>): seq<Op> {
    if es == [] then []
    else
      var before := es[..|es| - 1];
      Entitled(before) +
      match es[|es| - 1]
      case CallStart => if CallStart in before then [] else [StartOp]
      case CallComplete(result) => if CallTransfer in before then [] else [CompleteOp(result)]
      case _ => []
  }

  /** Begin and end of each write, one after the other. */
  function Serial(ops: seq<Op>): seq<Entry> {
    if ops == [] then [] else Serial(ops[..|ops| - 1]) + [Began(ops[|ops| - 1]), Ended(ops[|ops| - 1])]
  }

  lemma SerialSnoc(ops: seq<Op>, op: Op)
    ensures Serial(ops + [op]) == Serial(ops) + [Began(op), Ended(op)]
  {
    assert (ops + [op])[..|ops + [op]| - 1] == ops;
  }

  // ------------------------------------------------------------------ the invariant

  /** The links are the writes in order, each chained on the tail before it; the first `done` have
      ended, and the next one may be running. */
  predicate Inv(s: State, ops: seq<Op>, done: nat, running: bool) {
    && |s.links| == |ops| == s.tail
    && done <= |ops| && (running ==> done < |ops|)
    && (forall k | 0 <= k < |ops| :: LinkOk(s.links[k], k, ops[k], done, running))
    && (running && done > 0 ==> s.links[done - 1].tail == Fulfilled)
    && s.log == Serial(ops[..done]) + if running then [Began(ops[done])] else []
  }

  predicate LinkOk(l: Link, k: nat, op: Op, done: nat, running: bool) {
    && l.after == k && l.op == op
    && (l.run != Pending <==> k < done)
    && (l.invoked <==> k < done || (k == done && running))
    && (l.tail == Pending || (l.tail == Fulfilled && k < done))
    && (k + 1 < done ==> l.tail == Fulfilled)
  }

  lemma EnqueueKeeps(s: State, ops: seq<Op>, op: Op, done: nat, running: bool)
    requires Inv(s, ops, done, running)
    ensures Inv(Enqueued(s, op), ops + [op], done, running)
  {
    assert (ops + [op])[..done] == ops[..done];
  }

  function NextDone(s: State, e: Event, done: nat, running: bool): (nat, bool) {
    if !e.RunReaction? || e.k != done || e.k >= |s.links| then (done, running)
    else if running then (done + 1, false)
    else if done == 0 || s.links[done - 1].tail == Fulfilled then (done, true)
    else (done, running)
  }

  lemma RunReactKeeps(s: State, ops: seq<Op>, k: nat, ok: bool, done: nat, running: bool)
    requires Inv(s, ops, done, running)
    ensures var (d, r) := NextDone(s, RunReaction(k, ok), done, running); Inv(RunReacts(s, k, ok), ops, d, r)
  {
    if k < |ops| {
      assert LinkOk(s.links[k], k, ops[k], done, running);
      if k > 0 { assert LinkOk(s.links[k - 1], k - 1, ops[k - 1], done, running); }
      if k == done && running {
        EndKeeps(s, ops, ok, done);
      } else if k == done && TailState(s.links, k) == Fulfilled {
        assert RunReacts(s, k, ok).log == s.log + [Began(ops[k])];
      } else {
        assert RunReacts(s, k, ok) == s;
      }
    }
  }

  lemma EndKeeps(s: State, ops: seq<Op>, ok: bool, done: nat)
    requires Inv(s, ops, done, true)
    ensures Inv(RunReacts(s, done, ok), ops, done + 1, false)
  {
    assert LinkOk(s.links[done], done, ops[done], done, true);
    assert ops[..done + 1] == ops[..done] + [ops[done]];
    SerialSnoc(ops[..done], ops[done]);
    var t := RunReacts(s, done, ok);
    assert t.log == Serial(ops[..done]) + [Began(ops[done])] + [Ended(ops[done])];
    assert t.log == Serial(ops[..done + 1]);
  }

  lemma TailReactKeeps(s: State, ops: seq<Op>, k: nat, done: nat, running: bool)
    requires Inv(s, ops, done, running)
    ensures Inv(TailReacts(s, k), ops, done, running)
  {
    if k < |ops| { assert LinkOk(s.links[k], k, ops[k], done, running); }
  }

  /** What an event adds to the entitled writes, told by the two flags. */
  function Granted(s: State, e: Event): seq<Op> {
    match e
    case CallStart => if s.started then [] else [StartOp]
    case CallComplete(result) => if s.managerOwns then [] else [CompleteOp(result)]
    case _ => []
  }

  lemma ApplyKeeps(s: State, ops: seq<Op>, e: Event, done: nat, running: bool)
    requires Inv(s, ops, done, running)
    ensures var (d, r) := NextDone(s, e, done, running); Inv(Apply(s, e), ops + Granted(s, e), d, r)
  {
    assert ops + [] == ops;
    match e
    case CallStart => if !s.started { EnqueueKeeps(s.(started := true), ops, StartOp, done, running); }
    case CallTransfer =>
    case CallComplete(result) => if !s.managerOwns { EnqueueKeeps(s, ops, CompleteOp(result), done, running); }
    case RunReaction(k, ok) => RunReactKeeps(s, ops, k, ok, done, running);
    case TailReaction(k) => TailReactKeeps(s, ops, k, done, running);
  }

  /** The flags remember the calls, and the entitled writes are what was granted. */
  lemma {:induction false} FlagsRemember(es: seq<Event>)
    ensures Run(es).started <==> CallStart in es
    ensures Run(es).managerOwns <==> CallTransfer in es
    ensures es != [] ==> Entitled(es) == Entitled(es[..|es| - 1]) + Granted(Run(es[..|es| - 1]), es[|es| - 1])
  {
    if es != [] {
      assert es == es[..|es| - 1] + [es[|es| - 1]];
      FlagsRemember(es[..|es| - 1]);
    }
  }

  lemma {:induction false} RunShape(es: seq<Event>) returns (done: nat, running: bool)
    ensures Inv(Run(es), Entitled(es), done, running)
  {
    if es == [] {
      done, running := 0, false;
      assert Entitled(es)[..0] == [];
    } else {
      var before, e := es[..|es| - 1], es[|es| - 1];
      done, running := RunShape(before);
      ApplyKeeps(Run(before), Entitled(before), e, done, running);
      FlagsRemember(es);
      var next := NextDone(Run(before), e, done, running);
      done, running := next.0, next.1;
    }
  }

  // ------------------------------------------------------------------ main results

  /** In every run the sinks run one at a time, in the order the entitled calls were made, and each
      begins only once the one before it has ended, however that ended; no other call reaches a sink. */
  lemma OneAtATimeInOrder(es: seq<Event>)
    ensures Run(es).log <= Serial(Entitled(es))
  {
    var ops := Entitled(es);
    var done, running := RunShape(es);
    SerialPrefix(ops, done);
    if running {
      assert ops[..done + 1] == ops[..done] + [ops[done]];
      SerialSnoc(ops[..done], ops[done]);
      SerialPrefix(ops, done + 1);
    }
  }

  lemma {:induction false} SerialPrefix(ops: seq<Op>, n: nat)
    requires n <= |ops|
    ensures Serial(ops[..n]) <= Serial(ops)
    decreases |ops|
  {
    if n == |ops| {
      assert ops[..n] == ops;
    } else {
      SerialPrefix(ops[..|ops| - 1], n);
      assert ops[..|ops| - 1][..n] == ops[..n];
    }
  }

  /** The start sink is entitled to one write at most, whoever calls start() and how often. */
  lemma {:induction false} OneStart(es: seq<Event>)
    ensures forall i, j | 0 <= i < j < |Entitled(es)| :: !(Entitled(es)[i] == StartOp && Entitled(es)[j] == StartOp)
    ensures StartOp in Entitled(es) <==> CallStart in es
  {
    if es != [] {
      var before := es[..|es| - 1];
      assert es == before + [es[|es| - 1]];
      OneStart(before);
    }
  }

  /** After the transfer the entitled writes grow by a first start and by nothing else: no completion
      requested from then on reaches its sink. */
  lemma {:induction false} NothingAfterTransfer(before: seq<Event>, after: seq<Event>)
    requires CallTransfer in before
    ensures Entitled(before + after)
         == Entitled(before) + if CallStart in after && CallStart !in before then [StartOp] else []
    decreases |after|
  {
    if after == [] {
      assert before + after == before;
    } else {
      var es, init := before + after, after[..|after| - 1];
      assert es[..|es| - 1] == before + init;
      assert after == init + [after[|after| - 1]];
      NothingAfterTransfer(before, init);
    }
  }

  /** What is entitled never changes as calls follow. */
  lemma {:induction false} EntitledGrows(es: seq<Event>, n: nat)
    requires n <= |es|
    ensures Entitled(es[..n]) <= Entitled(es)
    decreases |es|
  {
    if n == |es| {
      assert es[..n] == es;
    } else {
      EntitledGrows(es[..|es| - 1], n);
      assert es[..|es| - 1][..n] == es[..n];
    }
  }

  /** No tail ever rejects, and a settled one says that every write enqueued up to it has ended. */
  lemma TailSettles(es: seq<Event>, p: nat)
    requires p <= |Run(es).links|
    ensures TailState(Run(es).links, p) != Rejected
    ensures TailState(Run(es).links, p) == Fulfilled ==> p <= |Entitled(es)| && Serial(Entitled(es)[..p]) <= Run(es).log
  {
    var s, ops := Run(es), Entitled(es);
    var done, running := RunShape(es);
    if p > 0 {
      assert LinkOk(s.links[p - 1], p - 1, ops[p - 1], done, running);
      if s.links[p - 1].tail == Fulfilled {
        SerialPrefix(ops[..done], p);
        assert ops[..done][..p] == ops[..p];
      }
    }
  }

  /** The tail covers every write entitled so far. */
  lemma TailCoversAll(es: seq<Event>)
    ensures Run(es).tail == |Run(es).links| == |Entitled(es)|
  {
    var _, _ := RunShape(es);
  }

  lemma PrefixTakes(a: seq<Op>, b: seq<Op>)
    requires a <= b
    ensures b[..|a|] == a
  {
  }

  /** The promise that the call ending the first n events handed out, at any later moment of the run: it
      never rejects, and once it has settled every write entitled up to that call has ended. */
  lemma ReturnedPromises(es: seq<Event>, n: nat)
    requires n <= |es|
    ensures var p := Run(es[..n]).tail;
            && p <= |Run(es).links| && TailState(Run(es).links, p) != Rejected
            && (TailState(Run(es).links, p) == Fulfilled ==> Serial(Entitled(es[..n])) <= Run(es).log)
  {
    TailCoversAll(es);
    TailCoversAll(es[..n]);
    EntitledGrows(es, n);
    PrefixTakes(Entitled(es[..n]), Entitled(es));
    TailSettles(es, Run(es[..n]).tail);
  }

  /** A failed write poisons nothing: while some entitled write has not ended, a sink is running, or a
      reaction of the next write or of the tail before it is due. */
  lemma NeverStuck(es: seq<Event>, ok: bool) returns (k: nat)
    ensures var s := Run(es);
            s.log == Serial(Entitled(es)) || RunReacts(s, k, ok).log != s.log || TailReacts(s, k) != s
  {
    var s, ops := Run(es), Entitled(es);
    var done, running := RunShape(es);
    k := done;
    if done == |ops| {
      assert ops[..done] == ops;
    } else {
      assert LinkOk(s.links[done], done, ops[done], done, running);
      if !running && done > 0 {
        assert LinkOk(s.links[done - 1], done - 1, ops[done - 1], done, running);
        if s.links[done - 1].tail == Pending {
          k := done - 1;
          assert TailReacts(s, k).links[k] != s.links[k];
          return;
        }
      }
      assert |RunReacts(s, done, ok).log| == |s.log| + 1;
    }
  }
}
