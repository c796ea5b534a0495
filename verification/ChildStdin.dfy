/** Delivering one payload to a child's stdin: what the stream may report, and what the request is told. */
module ChildStdin {
  import opened Options

  datatype Delivery = Pending | Succeeded | Failed

  /** A native failure by its `code`, and the two bounded errors that stand in for it. */
  datatype Failure = Incomplete | Epipe | StreamDestroyed | ConnReset | Other
  datatype Report = IncompleteError | WriteFailedError

  function Normalize(f: Failure): Report { if f == Other then WriteFailedError else IncompleteError }

  /** An error that is already normalized, as the code of a failure again. */
  function Again(r: Report): Failure { if r == IncompleteError then Incomplete else Other }

  datatype State = State(delivery: Delivery, reported: bool, cleaned: bool, reports: seq<Report>)

  const FRESH := State(Pending, false, false, [])

  datatype Event =
    | Written                    // the write callback without an error
    | WriteFailed(f: Failure)    // the write callback with one
    | Threw(f: Failure)          // write() or end() threw
    | ErrorEvent(f: Failure)     // the stream's `error` event
    | Close                      // the stream's `close` event
    | Cleanup                    // the owner lets go

  function Handle(s: State, f: Failure): State {
    if s.reported then s.(delivery := Failed)
    else s.(delivery := Failed, reported := true, reports := s.reports + [Normalize(f)])
  }

  /** Once cleaned up, the stream's error event reaches no listener. */
  function Apply(s: State, e: Event): State {
    match e
    case Written => if s.delivery == Pending then s.(delivery := Succeeded) else s
    case WriteFailed(f) => Handle(s, f)
    case Threw(f) => Handle(s, Again(Normalize(f)))
    case ErrorEvent(f) => if s.cleaned then s else Handle(s, f)
    case Close => s.(cleaned := true)
    case Cleanup => s.(cleaned := true)
  }

  function Run(es: seq<Event>): State { if es == [] then FRESH else Apply(Run(es[..|es| - 1]), es[|es| - 1]) }

  class StdinDelivery {
    var state: Delivery
    var reported: bool
    var cleaned: bool
    var reports: seq<Report>

    ghost function Model(): State
      reads this
    {
      State(state, reported, cleaned, reports)
    }

    constructor ()
      ensures Model() == FRESH
    {
      state, reported, cleaned, reports := Pending, false, false, [];
    }

    method HandleError(f: Failure)
      modifies this
      ensures Model() == Handle(old(Model()), f)
    {
      state := Failed;
      if reported { return; }
      reported := true;
      reports := reports + [Normalize(f)];
    }

    method WriteCallback(failure: Option<Failure>)
      modifies this
      ensures Model() == Apply(old(Model()), if failure.None? then Written else WriteFailed(failure.value))
    {
      if failure.Some? {
        HandleError(failure.value);
      } else if state == Pending {
        state := Succeeded;
      }
    }

    method CleanupListeners()
      modifies this
      ensures Model() == Apply(old(Model()), Cleanup)
    {
      if cleaned { return; }
      cleaned := true;
    }
  }

  // ------------------------------------------------------------------ properties of every run

  /** The failures that reach a handler: all but error events after the listeners were removed. */
  function Seen(es: seq<Event>): seq<Failure> {
    if es == [] then []
    else
      var before := es[..|es| - 1];
      Seen(before) +
      match es[|es| - 1]
      case WriteFailed(f) => [f]
      case Threw(f) => [f]
      case ErrorEvent(f) => if Close in before || Cleanup in before then [] else [f]
      case _ => []
  }

  /** Only the codes of a pipe that closed, natively or already normalized, count as an incomplete request. */
  lemma NormalizeMeans(f: Failure)
    ensures Normalize(f) == IncompleteError <==> f in {Incomplete, Epipe, StreamDestroyed, ConnReset}
  {
  }

  lemma NormalizeTwice(f: Failure)
    ensures Normalize(Again(Normalize(f))) == Normalize(f)
  {
  }

  predicate Describes(s: State, es: seq<Event>) {
    var seen := Seen(es);
    && s.reports == (if seen == [] then [] else [Normalize(seen[0])])
    && (s.reported <==> seen != [])
    && (s.delivery == Failed <==> seen != [])
    && (s.delivery == Succeeded <==> seen == [] && Written in es)
    && (s.cleaned <==> Close in es || Cleanup in es)
  }

  lemma DescribesNext(s: State, es: seq<Event>, e: Event)
    requires Describes(s, es)
    ensures Describes(Apply(s, e), es + [e])
  {
    assert (es + [e])[..|es + [e]| - 1] == es;
    if e.Threw? { NormalizeTwice(e.f); }
  }

  /** The owner is told of the first failure that reaches a handler, once and normalized, and of nothing
      else; delivery has succeeded exactly when the write callback came without an error and no failure
      was seen, before it or after it; and it has failed exactly when one was seen. */
  lemma {:induction false} DeliveryMeans(es: seq<Event>)
    ensures Describes(Run(es), es)
  {
    if es != [] {
      var before, e := es[..|es| - 1], es[|es| - 1];
      assert es == before + [e];
      DeliveryMeans(before);
      DescribesNext(Run(before), before, e);
    }
  }

  /** isChildStdinDeliveryIncomplete, for an optional delivery. */
  predicate DeliveryIncomplete(delivery: Option<Delivery>) { delivery.Some? && delivery.value != Succeeded }

  lemma FailedStep(s: State, e: Event)
    requires s.delivery == Failed && s.reported
    ensures Apply(s, e).delivery == Failed && Apply(s, e).reported && Apply(s, e).reports == s.reports
  {
  }

  /** A failed delivery stays failed, and nothing more is reported. */
  lemma {:induction false} FailedForever(before: seq<Event>, after: seq<Event>)
    requires Run(before).delivery == Failed
    ensures var s := Run(before + after); s.delivery == Failed && s.reported && s.reports == Run(before).reports
    decreases |after|
  {
    if after == [] {
      assert before + after == before;
      DeliveryMeans(before);
    } else {
      var init, e := after[..|after| - 1], after[|after| - 1];
      assert (before + after)[..|before + after| - 1] == before + init;
      FailedForever(before, init);
      FailedStep(Run(before + init), e);
    }
  }

  /** Judged at child close, delivery is complete exactly when the whole payload was taken by then and
      no failure had been seen: a callback that is still to come does not count. */
  lemma CompleteAtClose(es: seq<Event>)
    ensures !DeliveryIncomplete(Some(Run(es).delivery)) <==> Written in es && Seen(es) == []
  {
    DeliveryMeans(es);
  }
}
