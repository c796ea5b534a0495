/** Captured output of one job: what is kept, what is dropped and what the first overflow does. */
module OutputCapture {

  type Bytes = seq<bv8>

  datatype Stream = Stdout | Stderr

  /** A chunk as it arrived and the UTF-8 form of the text it decodes to. Each chunk is decoded on its
      own, so a character split over two chunks decodes to replacement characters. */
  datatype Chunk = Chunk(stream: Stream, raw: Bytes, text: Bytes)

  predicate KeepsLength(c: Chunk) { |c.text| == |c.raw| }

  /** `Settle` stands for whatever else ends the job; its output can still arrive afterwards. */
  datatype Event = Data(chunk: Chunk) | Settle

  datatype Status = Running | Failed | Settled

  datatype Capture = Capture(stdout: Bytes, stderr: Bytes, dropped: nat, truncated: bool, dirty: bool)

  datatype Outcome = Outcome(status: Status, terminationRequested: bool, exitCode: int, kills: nat)

  datatype State = State(out: Capture, end: Outcome)

  /** No exit code has been recorded. */
  const NO_EXIT := -1
  const OVERFLOW_EXIT := 126

  const START := State(Capture([], [], 0, false, false), Outcome(Running, false, NO_EXIT, 0))

  function Stored(o: Capture): nat { |o.stdout| + |o.stderr| }

  function Append(s: State, c: Chunk, max: nat, kit: bool): State {
    if Stored(s.out) + |c.raw| > max then
      State(
        s.out.(truncated := true, dropped := s.out.dropped + |c.raw|),
        if s.end.status == Running then
          Outcome(if kit then Running else Failed, true, OVERFLOW_EXIT, s.end.kills + 1)
        else s.end)
    else if c.stream == Stdout then s.(out := s.out.(stdout := s.out.stdout + c.text, dirty := true))
    else s.(out := s.out.(stderr := s.out.stderr + c.text, dirty := true))
  }

  function Apply(s: State, e: Event, max: nat, kit: bool): State {
    match e
    case Data(c) => Append(s, c, max, kit)
    case Settle => if s.end.status == Running then s.(end := s.end.(status := Settled)) else s
  }

  function Run(es: seq<Event>, max: nat, kit: bool): State {
    if es == [] then START else Apply(Run(es[..|es| - 1], max, kit), es[|es| - 1], max, kit)
  }

  /** The job record's capture fields, and the method that updates them. */
  class JobCapture {
    const max: nat
    const kit: bool
    var stdout: Bytes
    var stderr: Bytes
    var outputDroppedBytes: nat
    var outputTruncated: bool
    var outputDirty: bool
    var status: Status
    var terminationRequested: bool
    var exitCode: int
    var kills: nat

    ghost function Model(): State
      reads this
    {
      State(Capture(stdout, stderr, outputDroppedBytes, outputTruncated, outputDirty),
            Outcome(status, terminationRequested, exitCode, kills))
    }

    constructor (max: nat, kit: bool)
      ensures this.max == max && this.kit == kit && Model() == START
    {
      this.max, this.kit := max, kit;
      stdout, stderr, outputDroppedBytes, outputTruncated, outputDirty := [], [], 0, false, false;
      status, terminationRequested, exitCode, kills := Running, false, NO_EXIT, 0;
    }

    /** appendOutput, up to its first await. */
    method AppendOutput(stream: Stream, raw: Bytes, text: Bytes)
      modifies this
      ensures Model() == Append(old(Model()), Chunk(stream, raw, text), max, kit)
    {
      var totalBytes := |stdout| + |stderr| + |raw|;
      if totalBytes > max {
        outputTruncated := true;
        outputDroppedBytes := outputDroppedBytes + |raw|;
        if status == Running {
          terminationRequested := true;
          exitCode := OVERFLOW_EXIT;
          if !kit { status := Failed; }
          kills := kills + 1;
        }
        return;
      }
      if stream == Stdout { stdout := stdout + text; } else { stderr := stderr + text; }
      outputDirty := true;
    }
  }

  // ------------------------------------------------------------------ what a run keeps

  function Chunks(es: seq<Event>): seq<Chunk> {
    if es == [] then []
    else Chunks(es[..|es| - 1]) + match es[|es| - 1] { case Data(c) => [c] case Settle => [] }
  }

  /** The greedy choice: a chunk is kept exactly when it fits beside everything kept before it. */
  function Kept(cs: seq<Chunk>, max: nat): seq<Chunk> {
    if cs == [] then []
    else
      var before := Kept(cs[..|cs| - 1], max);
      var c := cs[|cs| - 1];
      if TextBytes(before) + |c.raw| <= max then before + [c] else before
  }

  function TextBytes(cs: seq<Chunk>): nat { if cs == [] then 0 else TextBytes(cs[..|cs| - 1]) + |cs[|cs| - 1].text| }
  function RawBytes(cs: seq<Chunk>): nat { if cs == [] then 0 else RawBytes(cs[..|cs| - 1]) + |cs[|cs| - 1].raw| }

  function Texts(cs: seq<Chunk>, stream: Stream): Bytes {
    if cs == [] then []
    else Texts(cs[..|cs| - 1], stream) + if cs[|cs| - 1].stream == stream then cs[|cs| - 1].text else []
  }

  lemma Last(cs: seq<Chunk>, c: Chunk)
    ensures (cs + [c])[..|cs + [c]| - 1] == cs && (cs + [c])[|cs|] == c
    ensures TextBytes(cs + [c]) == TextBytes(cs) + |c.text|
    ensures RawBytes(cs + [c]) == RawBytes(cs) + |c.raw|
  {
    assert (cs + [c])[..|cs + [c]| - 1] == cs;
  }

  lemma LastText(cs: seq<Chunk>, c: Chunk, stream: Stream)
    ensures Texts(cs + [c], stream) == if c.stream == stream then Texts(cs, stream) + c.text else Texts(cs, stream)
  {
    Last(cs, c);
    if c.stream != stream { assert Texts(cs, stream) + [] == Texts(cs, stream); }
  }

  /** Both streams are the kept chunks in arrival order; every other chunk is counted as dropped,
      and the truncation flag says whether there was one. */
  predicate Captures(o: Capture, cs: seq<Chunk>, max: nat) {
    var kept := Kept(cs, max);
    && o.stdout == Texts(kept, Stdout) && o.stderr == Texts(kept, Stderr)
    && Stored(o) == TextBytes(kept)
    && RawBytes(cs) == RawBytes(kept) + o.dropped
    && |kept| <= |cs| && (o.truncated <==> |kept| < |cs|)
    && (o.dirty <==> kept != [])
  }

  lemma AppendCaptures(s: State, cs: seq<Chunk>, c: Chunk, max: nat, kit: bool)
    requires Captures(s.out, cs, max)
    ensures Captures(Append(s, c, max, kit).out, cs + [c], max)
  {
    LastKept(cs, c, max);
    if TextBytes(Kept(cs, max)) + |c.raw| <= max { KeptCaptures(s, cs, c, max, kit); }
  }

  lemma KeptCaptures(s: State, cs: seq<Chunk>, c: Chunk, max: nat, kit: bool)
    requires Captures(s.out, cs, max) && TextBytes(Kept(cs, max)) + |c.raw| <= max
    ensures Captures(Append(s, c, max, kit).out, cs + [c], max)
  {
    var kept, o := Kept(cs, max), s.out;
    var next := Append(s, c, max, kit).out;
    LastKept(cs, c, max);
    assert next.stdout == Texts(kept + [c], Stdout) by { LastText(kept, c, Stdout); }
    assert next.stderr == Texts(kept + [c], Stderr) by { LastText(kept, c, Stderr); }
    Last(kept, c);
  }

  lemma LastKept(cs: seq<Chunk>, c: Chunk, max: nat)
    ensures Kept(cs + [c], max)
         == if TextBytes(Kept(cs, max)) + |c.raw| <= max then Kept(cs, max) + [c] else Kept(cs, max)
    ensures RawBytes(cs + [c]) == RawBytes(cs) + |c.raw|
  {
    Last(cs, c);
  }

  lemma {:induction false} CaptureIsKept(es: seq<Event>, max: nat, kit: bool)
    ensures Captures(Run(es, max, kit).out, Chunks(es), max)
  {
    if es != [] {
      var before := es[..|es| - 1];
      CaptureIsKept(before, max, kit);
      match es[|es| - 1]
      case Settle => assert Chunks(es) == Chunks(before);
      case Data(c) => AppendCaptures(Run(before, max, kit), Chunks(before), c, max, kit);
    }
  }

  predicate AllKeepLength(cs: seq<Chunk>) { forall c :: c in cs ==> KeepsLength(c) }

  lemma {:induction false} SameLengths(cs: seq<Chunk>)
    requires AllKeepLength(cs)
    ensures TextBytes(cs) == RawBytes(cs)
  {
    if cs != [] {
      assert KeepsLength(cs[|cs| - 1]);
      SameLengths(cs[..|cs| - 1]);
    }
  }

  lemma {:induction false} KeptAreChunks(cs: seq<Chunk>, max: nat)
    ensures forall c :: c in Kept(cs, max) ==> c in cs
  {
    if cs != [] { KeptAreChunks(cs[..|cs| - 1], max); }
  }

  lemma {:induction false} KeptFit(cs: seq<Chunk>, max: nat)
    requires AllKeepLength(cs)
    ensures TextBytes(Kept(cs, max)) <= max
    ensures |Kept(cs, max)| <= |cs|
    ensures |Kept(cs, max)| < |cs| <==> RawBytes(cs) > max
    ensures |Kept(cs, max)| == |cs| ==> Kept(cs, max) == cs
  {
    if cs != [] {
      var before, c := cs[..|cs| - 1], cs[|cs| - 1];
      assert KeepsLength(c);
      KeptFit(before, max);
      SameLengths(before);
      assert RawBytes(cs) == RawBytes(before) + |c.raw|;
      Last(Kept(before, max), c);
      KeptAreChunks(before, max);
      SameLengths(Kept(before, max));
    }
  }

  /** With length-preserving decoding no byte is unaccounted for, the cap holds, and output is
      truncated exactly when more than the cap arrived. */
  lemma Conserved(es: seq<Event>, max: nat, kit: bool)
    requires AllKeepLength(Chunks(es))
    ensures var o := Run(es, max, kit).out;
            RawBytes(Chunks(es)) == |o.stdout| + |o.stderr| + o.dropped
            && |o.stdout| + |o.stderr| <= max
            && (o.truncated <==> RawBytes(Chunks(es)) > max)
  {
    CaptureIsKept(es, max, kit);
    KeptFit(Chunks(es), max);
    KeptAreChunks(Chunks(es), max);
    SameLengths(Kept(Chunks(es), max));
  }

  /** A replacement character takes three bytes and stands for at least one. */
  predicate AtMostTriples(cs: seq<Chunk>) { forall c :: c in cs ==> |c.text| <= 3 * |c.raw| }

  lemma {:induction false} TripleBound(cs: seq<Chunk>, max: nat)
    requires AtMostTriples(cs)
    ensures TextBytes(Kept(cs, max)) <= 3 * max
  {
    if cs != [] {
      TripleBound(cs[..|cs| - 1], max);
      Last(Kept(cs[..|cs| - 1], max), cs[|cs| - 1]);
    }
  }

  /** Without that assumption the cap is checked against undecoded bytes: what is stored stays within
      three times the cap. */
  lemma StoredBound(es: seq<Event>, max: nat, kit: bool)
    requires AtMostTriples(Chunks(es))
    ensures Stored(Run(es, max, kit).out) <= 3 * max
  {
    CaptureIsKept(es, max, kit);
    TripleBound(Chunks(es), max);
  }

  /** Every run over chunks of C, under every cap, stays within that cap. */
  ghost predicate CapHolds(C: iset<Chunk>) {
    forall es: seq<Event>, max: nat, kit: bool | (forall c | c in Chunks(es) :: c in C) ::
      Stored(Run(es, max, kit).out) <= max
  }

  lemma {:induction false} KeptWithin(cs: seq<Chunk>, max: nat)
    requires forall c | c in cs :: |c.text| <= |c.raw|
    ensures TextBytes(Kept(cs, max)) <= max
  {
    if cs != [] {
      var before, c := cs[..|cs| - 1], cs[|cs| - 1];
      KeptWithin(before, max);
      Last(Kept(before, max), c);
      assert c in cs;
    }
  }

  lemma OneChunk(c: Chunk, max: nat, kit: bool)
    ensures Chunks([Data(c)]) == [c] && Run([Data(c)], max, kit) == Append(START, c, max, kit)
  {
    assert [Data(c)][..0] == [];
  }

  /** The exact condition for the cap to hold: no chunk grows when it is decoded. */
  lemma CapHoldsIff(C: iset<Chunk>)
    ensures CapHolds(C) <==> forall c | c in C :: |c.text| <= |c.raw|
  {
    if forall c | c in C :: |c.text| <= |c.raw| {
      forall es: seq<Event>, max: nat, kit: bool | (forall c | c in Chunks(es) :: c in C)
        ensures Stored(Run(es, max, kit).out) <= max
      {
        CaptureIsKept(es, max, kit);
        KeptWithin(Chunks(es), max);
      }
    } else {
      var c :| c in C && |c.text| > |c.raw|;
      OneChunk(c, |c.raw|, false);
      assert Stored(Run([Data(c)], |c.raw|, false).out) > |c.raw|;
    }
  }

  /** The bound of three times the cap is reached under every cap: by one chunk of undecodable bytes,
      each of which becomes a replacement character. */
  lemma TripleIsReached(max: nat, kit: bool)
    ensures exists es :: AtMostTriples(Chunks(es)) && Stored(Run(es, max, kit).out) == 3 * max
                         && !Run(es, max, kit).out.truncated
  {
    var replacements := seq(3 * max, i => if i % 3 == 0 then 0xEF else if i % 3 == 1 then 0xBF else 0xBD);
    var c := Chunk(Stdout, seq(max, _ => 0xFF), replacements);
    OneChunk(c, max, kit);
    assert AtMostTriples(Chunks([Data(c)])) && Stored(Run([Data(c)], max, kit).out) == 3 * max;
  }

  /** A dropped chunk leaves a hole: a later chunk that still fits is appended right after what was
      stored before the drop, so the stored output need not be a prefix of what arrived. */
  lemma DropLeavesAHole(es: seq<Event>, b: Chunk, c: Chunk, max: nat)
    requires Stored(Run(es, max, false).out) + |b.raw| > max >= Stored(Run(es, max, false).out) + |c.raw|
    requires b.stream == Stdout && c.stream == Stdout
    ensures Run(es + [Data(b)] + [Data(c)], max, false).out.stdout == Run(es, max, false).out.stdout + c.text
    ensures Texts(Chunks(es + [Data(b)] + [Data(c)]), Stdout) == Texts(Chunks(es), Stdout) + b.text + c.text
  {
    Snoc(es, Data(b), max);
    Snoc(es + [Data(b)], Data(c), max);
    Last(Chunks(es), b);
    Last(Chunks(es) + [b], c);
  }

  lemma Snoc(es: seq<Event>, e: Event, max: nat)
    ensures Run(es + [e], max, false) == Apply(Run(es, max, false), e, max, false)
    ensures Chunks(es + [e]) == Chunks(es) + match e { case Data(c) => [c] case Settle => [] }
  {
    assert (es + [e])[..|es + [e]| - 1] == es;
  }

  // ------------------------------------------------------------------ what an overflow does

  predicate EndOk(s: State, kit: bool) {
    && s.end.exitCode == (if s.end.kills > 0 then 126 else -1)
    && (s.end.kills > 0 <==> s.end.terminationRequested)
    && (s.end.kills > 0 ==> s.out.truncated)
    && (s.end.status == Failed ==> s.end.kills == 1 && !kit)
    && (!kit && s.end.kills > 0 ==> s.end.status == Failed)
    && (s.end.status == Running && s.out.truncated ==> s.end.kills > 0)
  }

  /** A running job is killed with exit code 126 as soon as a chunk is dropped, and never otherwise;
      outside Kit execution it fails then and is killed once. */
  lemma {:induction false} OverflowKills(es: seq<Event>, max: nat, kit: bool)
    ensures EndOk(Run(es, max, kit), kit)
  {
    if es != [] { OverflowKills(es[..|es| - 1], max, kit); }
  }

  /** Some chunk was dropped before anything else had ended the job. */
  predicate OverflowedRunning(es: seq<Event>, max: nat) {
    es != [] &&
    var before := es[..|es| - 1];
    OverflowedRunning(before, max)
    || (es[|es| - 1].Data? && Settle !in before
        && TextBytes(Kept(Chunks(before), max)) + |es[|es| - 1].chunk.raw| > max)
  }

  predicate KilledAs(s: State, es: seq<Event>, max: nat, kit: bool) {
    var over := OverflowedRunning(es, max);
    && (s.end.kills > 0 <==> over)
    && s.end.exitCode == (if over then 126 else -1)
    && s.end.status == (if !kit && over then Failed else if Settle in es then Settled else Running)
  }

  lemma KilledStep(s: State, before: seq<Event>, e: Event, max: nat, kit: bool)
    requires KilledAs(s, before, max, kit) && Stored(s.out) == TextBytes(Kept(Chunks(before), max))
    ensures KilledAs(Apply(s, e, max, kit), before + [e], max, kit)
  {
    var es := before + [e];
    assert es[..|es| - 1] == before && es[|es| - 1] == e;
    assert Settle in es <==> Settle in before || e == Settle;
  }

  /** The job is killed exactly when that happened, and ends as failed, with exit code 126. */
  lemma {:induction false} KilledIff(es: seq<Event>, max: nat, kit: bool)
    ensures KilledAs(Run(es, max, kit), es, max, kit)
  {
    if es != [] {
      var before, e := es[..|es| - 1], es[|es| - 1];
      assert es == before + [e];
      KilledIff(before, max, kit);
      CaptureIsKept(before, max, kit);
      KilledStep(Run(before, max, kit), before, e, max, kit);
    }
  }
}
