/** The transcript recorder's two rows per request and the completion-rank rule that fences them. */
module FlightRecorder {
  import opened Options

  datatype Id = Id(value: nat)
  datatype Text = Text(value: string)
  datatype Kind = Presumed | Observed

  /** The columns a completion writes to the request row and to the metadata row. */
  datatype Answer = Answer(response: Text, durationMs: int, inputTokens: Option<int>, outputTokens: Option<int>)
  datatype Outcome = Outcome(status: Text, exitCode: int, error: Option<Text>)
  datatype Completion = Completion(kind: Kind, answer: Answer, outcome: Outcome)

  datatype Routing = Routing(estimate: Option<int>, reason: Option<Text>)
  datatype Compression = Compression(route: Text, originalChars: nat, compressedChars: nat)

  datatype Request = Request(prompt: Text, answer: Option<Answer>)
  /** `outcome` is None while the status column reads "started". */
  datatype Metadata = Metadata(
    rank: nat, outcome: Option<Outcome>, compression: Option<Compression>, routing: Option<Routing>)

  datatype Store = Store(requests: map<Id, Request>, metadata: map<Id, Metadata>)

  const MIGRATED_RANK: nat := 3

  function Rank(c: Completion): (r: nat)
    ensures 0 < r < MIGRATED_RANK
  {
    if c.kind == Presumed then 1 else 2
  }

  /** One committed transaction. One that fails leaves no trace and is no operation of a run. */
  datatype Op =
    | Start(id: Id, prompt: Text)
    | Complete(id: Id, completion: Completion)
    | Compress(id: Id, telemetry: Compression)
    | Route(id: Id, routing: Routing)

  function Apply(s: Store, op: Op): Store {
    match op
    case Start(id, prompt) =>
      if id in s.requests || id in s.metadata then s
      else Store(s.requests[id := Request(prompt, None)], s.metadata[id := Metadata(0, None, None, None)])
    case Complete(id, c) =>
      if id !in s.metadata || s.metadata[id].rank > Rank(c) then s
      else
        Store(
          if id in s.requests then s.requests[id := s.requests[id].(answer := Some(c.answer))] else s.requests,
          s.metadata[id := s.metadata[id].(outcome := Some(c.outcome), rank := Rank(c))])
    case Compress(id, t) =>
      if id !in s.metadata || s.metadata[id].compression.Some? || s.metadata[id].rank >= MIGRATED_RANK then s
      else s.(metadata := s.metadata[id := s.metadata[id].(compression := Some(t))])
    case Route(id, r) =>
      if id !in s.metadata || s.metadata[id].rank >= MIGRATED_RANK then s
      else s.(metadata := s.metadata[id := s.metadata[id].(routing := Some(r))])
  }

  function Run(s: Store, ops: seq<Op>): Store {
    if ops == [] then s else Apply(Run(s, ops[..|ops| - 1]), ops[|ops| - 1])
  }

  /** Telemetry and routing touch no request, no other row, no completion and no migrated row. */
  predicate KeepsOthers(s: Store, t: Store, id: Id) {
    && t.requests == s.requests && t.metadata.Keys == s.metadata.Keys
    && (forall x | x in s.metadata && x != id :: t.metadata[x] == s.metadata[x])
    && (id in s.metadata ==>
          t.metadata[id].rank == s.metadata[id].rank && t.metadata[id].outcome == s.metadata[id].outcome)
    && (id in s.metadata && s.metadata[id].rank >= MIGRATED_RANK ==> t.metadata[id] == s.metadata[id])
  }

  /** The two tables, and the statements each transaction issues against them. */
  class Recorder {
    var requests: map<Id, Request>
    var metadata: map<Id, Metadata>

    ghost function Model(): Store
      reads this
    {
      Store(requests, metadata)
    }

    constructor ()
      ensures Model() == Store(map[], map[])
    {
      requests, metadata := map[], map[];
    }

    /** Both inserts, or neither: the ids are primary keys. */
    method LogStart(id: Id, prompt: Text) returns (ok: bool)
      modifies this
      ensures Model() == Apply(old(Model()), Start(id, prompt))
      ensures ok <==> id !in old(requests) && id !in old(metadata)
    {
      ok := id !in requests && id !in metadata;
      if ok {
        requests := requests[id := Request(prompt, None)];
        metadata := metadata[id := Metadata(0, None, None, None)];
      }
    }

    /** The request row first, guarded by the metadata row's rank, then the metadata row itself. */
    method LogComplete(id: Id, c: Completion)
      modifies this
      ensures Model() == Apply(old(Model()), Complete(id, c))
    {
      var rank := Rank(c);
      if id in requests && id in metadata && metadata[id].rank <= rank {
        requests := requests[id := requests[id].(answer := Some(c.answer))];
      }
      if id in metadata && metadata[id].rank <= rank {
        metadata := metadata[id := metadata[id].(outcome := Some(c.outcome), rank := rank)];
      }
    }

    method RecordCompressionTelemetry(id: Id, t: Compression)
      modifies this
      ensures Model() == Apply(old(Model()), Compress(id, t))
      ensures KeepsOthers(old(Model()), Model(), id)
    {
      if id in metadata && metadata[id].compression.None? && metadata[id].rank < MIGRATED_RANK {
        metadata := metadata[id := metadata[id].(compression := Some(t))];
      }
    }

    method RecordRouting(id: Id, r: Routing)
      modifies this
      ensures Model() == Apply(old(Model()), Route(id, r))
      ensures KeepsOthers(old(Model()), Model(), id)
    {
      if id in metadata && metadata[id].rank < MIGRATED_RANK {
        metadata := metadata[id := metadata[id].(routing := Some(r))];
      }
    }
  }

  // ------------------------------------------------------------------ which completion wins

  /** The completions of one request, in commit order. */
  function CompletionsOf(ops: seq<Op>, id: Id): seq<Completion> {
    if ops == [] then []
    else
      var last := ops[|ops| - 1];
      CompletionsOf(ops[..|ops| - 1], id) + if last.Complete? && last.id == id then [last.completion] else []
  }

  /** Completion k has the highest rank of all, and every later one ranks lower. */
  predicate Wins(cs: seq<Completion>, k: nat) {
    k < |cs|
    && (forall j | 0 <= j < |cs| :: Rank(cs[j]) <= Rank(cs[k]))
    && (forall j | k < j < |cs| :: Rank(cs[j]) < Rank(cs[k]))
  }

  predicate StartedRow(s: Store, id: Id, prompt: Text) {
    id in s.requests && id in s.metadata && s.requests[id] == Request(prompt, None)
    && s.metadata[id].rank == 0 && s.metadata[id].outcome == None
  }

  /** Both rows carry completion c; or, with none, both are as they were started. */
  predicate Carries(s: Store, id: Id, prompt: Text, c: Option<Completion>) {
    && id in s.requests && id in s.metadata && s.requests[id].prompt == prompt
    && s.requests[id].answer == (if c.Some? then Some(c.value.answer) else None)
    && s.metadata[id].outcome == (if c.Some? then Some(c.value.outcome) else None)
    && s.metadata[id].rank == (if c.Some? then Rank(c.value) else 0)
  }

  /** The winner so far, against one more completion. */
  lemma NextWinner(cs: seq<Completion>, c: Completion, k: nat)
    requires Wins(cs, k)
    ensures Rank(c) >= Rank(cs[k]) ==> Wins(cs + [c], |cs|)
    ensures Rank(c) < Rank(cs[k]) ==> Wins(cs + [c], k)
  {
  }

  /** What one transaction does to the completion the rows carry. */
  lemma CarryStep(s: Store, op: Op, id: Id, prompt: Text, best: Option<Completion>)
    requires Carries(s, id, prompt, best)
    ensures var mine := op.Complete? && op.id == id && (best.None? || Rank(op.completion) >= Rank(best.value));
            Carries(Apply(s, op), id, prompt, if mine then Some(op.completion) else best)
  {
  }

  /** Response columns and metadata columns always come from one completion: the last of those with
      the highest rank among everything committed for the request. */
  lemma {:induction false} LastOfHighestRank(s: Store, ops: seq<Op>, id: Id, prompt: Text) returns (k: nat)
    requires StartedRow(s, id, prompt)
    ensures var cs := CompletionsOf(ops, id);
            if cs == [] then Carries(Run(s, ops), id, prompt, None)
            else Wins(cs, k) && Carries(Run(s, ops), id, prompt, Some(cs[k]))
  {
    k := 0;
    if ops != [] {
      var before, op := ops[..|ops| - 1], ops[|ops| - 1];
      k := LastOfHighestRank(s, before, id, prompt);
      var cs := CompletionsOf(before, id);
      CarryStep(Run(s, before), op, id, prompt, if cs == [] then None else Some(cs[k]));
      if op.Complete? && op.id == id {
        if cs == [] {
          k := 0;
        } else {
          NextWinner(cs, op.completion, k);
          if Rank(op.completion) >= Rank(cs[k]) { k := |cs|; }
        }
      } else {
        assert CompletionsOf(ops, id) == cs;
      }
    }
  }

  lemma WinnerIsUnique(cs: seq<Completion>, j: nat, k: nat)
    requires Wins(cs, j) && Wins(cs, k)
    ensures j == k
  {
    assert Rank(cs[j]) <= Rank(cs[k]) && Rank(cs[k]) <= Rank(cs[j]);
  }

  /** One observed completion, before or after any number of presumed ones, is never overwritten by
      them: the row carries the last observed one. */
  lemma PresumedNeverWins(s: Store, ops: seq<Op>, id: Id, prompt: Text, j: nat)
    requires StartedRow(s, id, prompt) && j < |CompletionsOf(ops, id)| && CompletionsOf(ops, id)[j].kind == Observed
    requires forall i | j < i < |CompletionsOf(ops, id)| :: CompletionsOf(ops, id)[i].kind == Presumed
    ensures Carries(Run(s, ops), id, prompt, Some(CompletionsOf(ops, id)[j]))
  {
    var k := LastOfHighestRank(s, ops, id, prompt);
    assert Wins(CompletionsOf(ops, id), j);
    WinnerIsUnique(CompletionsOf(ops, id), j, k);
  }

  /** Ranks only grow, compression telemetry is written once, and no prompt is ever rewritten. */
  lemma {:induction false} RowsOnlyAdvance(s: Store, ops: seq<Op>, id: Id)
    ensures var t := Run(s, ops);
            && (id in s.metadata ==> id in t.metadata && t.metadata[id].rank >= s.metadata[id].rank)
            && (id in s.metadata && s.metadata[id].compression.Some? ==>
                  t.metadata[id].compression == s.metadata[id].compression)
            && (id in s.requests ==> id in t.requests && t.requests[id].prompt == s.requests[id].prompt)
  {
    if ops != [] { RowsOnlyAdvance(s, ops[..|ops| - 1], id); }
  }

  /** A migrated row is out of reach of every live write. */
  lemma {:induction false} MigratedRowIsFrozen(s: Store, ops: seq<Op>, id: Id)
    requires id in s.requests && id in s.metadata && s.metadata[id].rank == MIGRATED_RANK
    ensures var t := Run(s, ops);
            id in t.requests && t.requests[id] == s.requests[id] && id in t.metadata && t.metadata[id] == s.metadata[id]
  {
    if ops != [] { MigratedRowIsFrozen(s, ops[..|ops| - 1], id); }
  }

  /** A completion without a start fabricates no row. */
  lemma {:induction false} NoStartNoRow(s: Store, ops: seq<Op>, id: Id)
    requires id !in s.requests && id !in s.metadata
    requires forall k | 0 <= k < |ops| :: !(ops[k].Start? && ops[k].id == id)
    ensures id !in Run(s, ops).requests && id !in Run(s, ops).metadata
  {
    if ops != [] { NoStartNoRow(s, ops[..|ops| - 1], id); }
  }

  // ------------------------------------------------------------------ from the start of a request on

  const EMPTY := Store(map[], map[])

  lemma {:induction false} RunConcat(s: Store, a: seq<Op>, b: seq<Op>)
    ensures Run(s, a + b) == Run(Run(s, a), b)
    decreases |b|
  {
    if b == [] {
      assert a + b == a;
    } else {
      assert (a + b)[..|a + b| - 1] == a + b[..|b| - 1];
      RunConcat(s, a, b[..|b| - 1]);
    }
  }

  predicate Starts(ops: seq<Op>, id: Id) { exists k :: 0 <= k < |ops| && ops[k].Start? && ops[k].id == id }

  lemma StartMakesRow(before: seq<Op>, id: Id, prompt: Text)
    requires !Starts(before, id)
    ensures StartedRow(Run(EMPTY, before + [Start(id, prompt)]), id, prompt)
    ensures var m := Run(EMPTY, before + [Start(id, prompt)]).metadata;
            id in m && m[id] == Metadata(0, None, None, None)
  {
    NoStartNoRow(EMPTY, before, id);
    RunConcat(EMPTY, before, [Start(id, prompt)]);
    assert [Start(id, prompt)][..0] == [];
  }

  /** In every run from the empty store, from the first start of a request on: its rows carry the prompt
      and the last of the highest-ranking completions after the start, or none yet. */
  lemma RequestCarries(before: seq<Op>, id: Id, prompt: Text, after: seq<Op>) returns (k: nat)
    requires !Starts(before, id)
    ensures var s := Run(EMPTY, before + [Start(id, prompt)] + after); var cs := CompletionsOf(after, id);
            if cs == [] then Carries(s, id, prompt, None)
            else Wins(cs, k) && Carries(s, id, prompt, Some(cs[k]))
  {
    StartMakesRow(before, id, prompt);
    RunConcat(EMPTY, before + [Start(id, prompt)], after);
    k := LastOfHighestRank(Run(EMPTY, before + [Start(id, prompt)]), after, id, prompt);
  }

  /** The first compression record of a request, and its last routing record. */
  function FirstCompression(ops: seq<Op>, id: Id): Option<Compression> {
    if ops == [] then None
    else
      var before, op := FirstCompression(ops[..|ops| - 1], id), ops[|ops| - 1];
      if before.None? && op.Compress? && op.id == id then Some(op.telemetry) else before
  }

  function LastRouting(ops: seq<Op>, id: Id): Option<Routing> {
    if ops == [] then None
    else
      var op := ops[|ops| - 1];
      if op.Route? && op.id == id then Some(op.routing) else LastRouting(ops[..|ops| - 1], id)
  }

  lemma {:induction false} TelemetryFrom(s: Store, ops: seq<Op>, id: Id)
    requires id in s.metadata && s.metadata[id].rank < MIGRATED_RANK
    requires s.metadata[id].compression == None && s.metadata[id].routing == None
    ensures var m := Run(s, ops).metadata;
            id in m && m[id].rank < MIGRATED_RANK
            && m[id].compression == FirstCompression(ops, id) && m[id].routing == LastRouting(ops, id)
  {
    if ops != [] { TelemetryFrom(s, ops[..|ops| - 1], id); }
  }

  /** And its metadata row carries the first compression record and the last routing record since then. */
  lemma RequestTelemetry(before: seq<Op>, id: Id, prompt: Text, after: seq<Op>)
    requires !Starts(before, id)
    ensures var m := Run(EMPTY, before + [Start(id, prompt)] + after).metadata;
            id in m && m[id].compression == FirstCompression(after, id) && m[id].routing == LastRouting(after, id)
  {
    StartMakesRow(before, id, prompt);
    RunConcat(EMPTY, before + [Start(id, prompt)], after);
    TelemetryFrom(Run(EMPTY, before + [Start(id, prompt)]), after, id);
  }
}
