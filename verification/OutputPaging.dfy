/** Reading captured output page by page, with a known identifier redacted on every page. */
module OutputPaging {
  import opened Options

  type Text = seq<char>

  /** Redacted text before it is rendered: a surviving character, or the redaction marker. */
  datatype Piece = Char(c: char) | Marker

  datatype Page = Page(text: Text, truncated: bool, offset: nat, total: nat, next: Option<nat>)

  /** pageText */
  function PageText(value: Text, maxChars: nat, requestedOffset: int): (p: Page)
    ensures p.offset <= |value| && p.offset + |p.text| <= |value| && p.text == value[p.offset..p.offset + |p.text|]
    ensures p.truncated <==> p.offset + |p.text| < |value|
    ensures p.total == |value|
    ensures p.next == if p.offset + |p.text| < |value| then Some(p.offset + |p.text|) else None
    ensures p.offset == Min(Max(0, requestedOffset), |value|)
    ensures |p.text| <= maxChars && (|p.text| < maxChars ==> p.next.None?)
  {
    var low := if requestedOffset < 0 then 0 else requestedOffset;
    var offset := if low < |value| then low else |value|;
    var end := if offset + maxChars < |value| then offset + maxChars else |value|;
    Page(value[offset..end], end < |value|, offset, |value|, if end < |value| then Some(end) else None)
  }

  // ------------------------------------------------------------------ occurrences

  predicate OccursAt(full: Text, secret: Text, k: nat) {
    k + |secret| <= |full| && full[k..k + |secret|] == secret
  }

  predicate FirstFrom(full: Text, secret: Text, from: nat, k: nat) {
    from <= k <= |full| + 1
    && (k <= |full| ==> OccursAt(full, secret, k))
    && forall j :: from <= j < k ==> !OccursAt(full, secret, j)
  }

  lemma {:induction false} FirstExists(full: Text, secret: Text, from: nat)
    requires from <= |full| + 1
    ensures exists k: nat :: FirstFrom(full, secret, from, k)
    decreases |full| + 1 - from
  {
    if from <= |full| && !OccursAt(full, secret, from) {
      FirstExists(full, secret, from + 1);
      var k: nat :| FirstFrom(full, secret, from + 1, k);
      assert FirstFrom(full, secret, from, k);
    } else {
      assert FirstFrom(full, secret, from, from);
    }
  }

  /** The first occurrence at or after `from`, or |full| + 1 when there is none. */
  ghost function IndexFrom(full: Text, secret: Text, from: nat): (k: nat)
    requires from <= |full|
    ensures from <= k && (k <= |full| ==> k + |secret| <= |full|)
  {
    FirstExists(full, secret, from);
    var k: nat :| FirstFrom(full, secret, from, k);
    assert k <= |full| ==> OccursAt(full, secret, k);
    k
  }

  lemma IndexFromMeans(full: Text, secret: Text, from: nat)
    requires from <= |full|
    ensures FirstFrom(full, secret, from, IndexFrom(full, secret, from))
  {
    FirstExists(full, secret, from);
  }

  /** full.indexOf(secret, from) */
  method IndexOf(full: Text, secret: Text, from: nat) returns (k: nat)
    requires from <= |full|
    ensures k == IndexFrom(full, secret, from)
  {
    k := from;
    while k <= |full| && !(k + |secret| <= |full| && full[k..k + |secret|] == secret)
      invariant from <= k <= |full| + 1
      invariant forall j :: from <= j < k ==> !OccursAt(full, secret, j)
    {
      k := k + 1;
    }
    assert FirstFrom(full, secret, from, k);
    IndexFromMeans(full, secret, from);
    FirstIsUnique(full, secret, from, k, IndexFrom(full, secret, from));
  }

  lemma FirstIsUnique(full: Text, secret: Text, from: nat, k: nat, m: nat)
    requires FirstFrom(full, secret, from, k) && FirstFrom(full, secret, from, m)
    ensures k == m
  {
    assert k < m ==> OccursAt(full, secret, k);
    assert m < k ==> OccursAt(full, secret, m);
  }

  /** Position i lies in one of the leftmost non-overlapping occurrences from `from` on. */
  ghost predicate Covered(full: Text, secret: Text, from: nat, i: nat)
    requires secret != [] && from <= |full|
    decreases |full| - from
  {
    var k := IndexFrom(full, secret, from);
    k <= |full| && (k <= i < k + |secret| || Covered(full, secret, k + |secret|, i))
  }

  /** The text from `from` on without its leftmost non-overlapping occurrences of the secret. */
  ghost function Deleted(full: Text, secret: Text, from: nat): Text
    requires secret != [] && from <= |full|
    decreases |full| - from
  {
    var k := IndexFrom(full, secret, from);
    if k > |full| then full[from..] else full[from..k] + Deleted(full, secret, k + |secret|)
  }

  predicate Contains(t: Text, secret: Text) { exists k :: 0 <= k <= |t| && OccursAt(t, secret, k) }

  // ------------------------------------------------------------------ the redactor

  function Chars(t: Text): seq<Piece> { if t == [] then [] else [Char(t[0])] + Chars(t[1..]) }

  function Max(a: int, b: int): int { if a < b then b else a }
  function Min(a: int, b: int): int { if a < b then a else b }

  /** The redactor on the page [lo, hi), with the next search starting at `from`, the page written
      up to `cursor` and `out` written so far. */
  ghost function Redact(full: Text, secret: Text, lo: nat, hi: nat, from: nat, cursor: nat, out: seq<Piece>): seq<Piece>
    requires secret != [] && from <= |full| && lo <= cursor <= hi <= |full| && (cursor == lo || from >= cursor)
    decreases |full| - from
  {
    var k := IndexFrom(full, secret, from);
    if k > |full| then out + Chars(full[cursor..hi])
    else
      var start, end := Max(lo, k), Min(hi, k + |secret|);
      if start < end then
        Redact(full, secret, lo, hi, k + |secret|, end, out + Chars(full[cursor..start]) + [Marker])
      else Redact(full, secret, lo, hi, k + |secret|, cursor, out)
  }

  /** The redacted page [lo, hi). */
  ghost function RedactedPage(full: Text, secret: Text, lo: nat, hi: nat): seq<Piece>
    requires lo <= hi <= |full|
  {
    if secret == [] then Chars(full[lo..hi]) else Redact(full, secret, lo, hi, 0, lo, [])
  }

  /** The redactor in the page's own coordinates: `page` starts at `offset`, `cursor` counts from there. */
  ghost function Finish(
    page: Text, offset: nat, full: Text, secret: Text, from: nat, cursor: nat, out: seq<Piece>): seq<Piece>
    requires offset + |page| <= |full| && secret != []
    requires from <= |full| && cursor <= |page| && (cursor == 0 || from >= offset + cursor)
  {
    Redact(full, secret, offset, offset + |page|, from, offset + cursor, out)
  }

  lemma FinishStep(page: Text, offset: nat, full: Text, secret: Text, from: nat, cursor: nat, k: nat, out: seq<Piece>)
    requires offset + |page| <= |full| && secret != [] && page == full[offset..offset + |page|]
    requires from <= |full| && cursor <= |page| && (cursor == 0 || from >= offset + cursor)
    requires k == IndexFrom(full, secret, from) && k <= |full|
    ensures var start, end := Max(offset, k), Min(offset + |page|, k + |secret|);
            Finish(page, offset, full, secret, from, cursor, out)
            == if start < end then
                 Finish(page, offset, full, secret, k + |secret|, end - offset,
                        out + Chars(page[cursor..start - offset]) + [Marker])
               else Finish(page, offset, full, secret, k + |secret|, cursor, out)
  {
    if Max(offset, k) < Min(offset + |page|, k + |secret|) {
      SliceOfSlice(full, offset, offset + |page|, cursor, Max(offset, k) - offset);
    }
  }

  lemma FinishDone(page: Text, offset: nat, full: Text, secret: Text, from: nat, cursor: nat, out: seq<Piece>)
    requires offset + |page| <= |full| && secret != [] && page == full[offset..offset + |page|]
    requires from <= |full| && cursor <= |page| && (cursor == 0 || from >= offset + cursor)
    requires IndexFrom(full, secret, from) > |full|
    ensures Finish(page, offset, full, secret, from, cursor, out) == out + Chars(page[cursor..])
  {
    TailOfSlice(full, offset, offset + |page|, cursor);
  }

  /** What the redactor returns once no match is left. */
  function Tail(page: Text, cursor: nat, out: seq<Piece>): seq<Piece>
    requires cursor <= |page|
  {
    if cursor == 0 then Chars(page) else out + Chars(page[cursor..])
  }

  lemma TailMeans(page: Text, cursor: nat, out: seq<Piece>)
    requires cursor <= |page| && (cursor == 0 ==> out == [])
    ensures Tail(page, cursor, out) == out + Chars(page[cursor..])
  {
    if cursor == 0 { WholePage(page); }
  }

  lemma WholePage(page: Text)
    ensures page[0..] == page && [] + Chars(page) == Chars(page)
  {
  }

  lemma TailOfSlice(full: Text, lo: nat, hi: nat, a: nat)
    requires lo <= hi <= |full| && a <= hi - lo
    ensures full[lo..hi][a..] == full[lo + a..hi]
  {
    SliceOfSlice(full, lo, hi, a, hi - lo);
    assert full[lo..hi][a..] == full[lo..hi][a..hi - lo];
  }

  lemma NothingToRedact(page: Text, offset: nat, full: Text, secret: Text)
    requires offset + |page| <= |full| && page == full[offset..offset + |page|]
    requires page == [] || secret == []
    ensures RedactedPage(full, secret, offset, offset + |page|) == Chars(page)
  {
    if secret != [] { EmptyPage(full, secret, offset, 0); }
  }

  /** One turn of the redactor's loop: what it writes for the match at `matchOffset`. */
  method RedactMatch(
    page: Text, offset: nat, full: Text, secret: Text, ghost from: nat, matchOffset: nat, at: nat, written: seq<Piece>)
    returns (cursor: nat, redacted: seq<Piece>)
    requires offset + |page| <= |full| && secret != [] && page == full[offset..offset + |page|]
    requires from <= |full| && at <= |page| && (at == 0 || from >= offset + at)
    requires matchOffset == IndexFrom(full, secret, from) && matchOffset <= |full|
    ensures cursor <= |page| && (cursor == 0 || matchOffset + |secret| >= offset + cursor)
    ensures cursor == 0 ==> at == 0 && redacted == written
    ensures Finish(page, offset, full, secret, matchOffset + |secret|, cursor, redacted)
         == Finish(page, offset, full, secret, from, at, written)
  {
    cursor, redacted := at, written;
    var pageEnd := offset + |page|;
    var matchEnd := matchOffset + |secret|;
    var overlapStart := Max(offset, matchOffset);
    var overlapEnd := Min(pageEnd, matchEnd);
    FinishStep(page, offset, full, secret, from, at, matchOffset, written);
    if overlapStart < overlapEnd {
      var localStart := overlapStart - offset;
      var localEnd := overlapEnd - offset;
      redacted := redacted + Chars(page[cursor..localStart]) + [Marker];
      cursor := localEnd;
    }
  }

  /** redactKnownTextPage, on the page of `full` that starts at `offset`. */
  method RedactKnownTextPage(page: Text, offset: nat, full: Text, secret: Text) returns (r: seq<Piece>)
    requires offset + |page| <= |full| && page == full[offset..offset + |page|]
    ensures r == RedactedPage(full, secret, offset, offset + |page|)
  {
    if page == [] || secret == [] {
      NothingToRedact(page, offset, full, secret);
      return Chars(page);
    }
    var matchOffset := IndexOf(full, secret, 0);
    var cursor: nat := 0;
    var redacted: seq<Piece> := [];
    ghost var from: nat := 0;
    ghost var result := Finish(page, offset, full, secret, 0, 0, []);
    while matchOffset <= |full|
      invariant from <= |full| && matchOffset == IndexFrom(full, secret, from)
      invariant cursor <= |page| && (cursor == 0 || from >= offset + cursor)
      invariant cursor == 0 ==> redacted == []
      invariant Finish(page, offset, full, secret, from, cursor, redacted) == result
      decreases |full| - from
    {
      cursor, redacted := RedactMatch(page, offset, full, secret, from, matchOffset, cursor, redacted);
      from := matchOffset + |secret|;
      matchOffset := IndexOf(full, secret, matchOffset + |secret|);
    }
    FinishDone(page, offset, full, secret, from, cursor, redacted);
    TailMeans(page, cursor, redacted);
    r := Tail(page, cursor, redacted);
  }

  lemma {:induction false} EmptyPage(full: Text, secret: Text, at: nat, from: nat)
    requires secret != [] && at <= |full| && from <= |full|
    ensures Redact(full, secret, at, at, from, at, []) == []
    decreases |full| - from
  {
    var k := IndexFrom(full, secret, from);
    if k <= |full| { EmptyPage(full, secret, at, k + |secret|); }
  }

  // ------------------------------------------------------------------ pieces against positions

  /** The positions that the leftmost non-overlapping occurrences from `from` on cover. */
  ghost function Gone(full: Text, secret: Text, from: nat): nat -> bool
    requires secret != [] && from <= |full|
  {
    (i: nat) => Covered(full, secret, from, i)
  }

  /** The pieces account for the positions [lo, hi) from left to right: a character for each position
      that stays, a marker for a stretch of those that are gone. */
  ghost predicate Aligned(full: Text, gone: nat -> bool, pieces: seq<Piece>, lo: nat, hi: nat)
    requires hi <= |full|
  {
    if pieces == [] then lo == hi
    else if pieces[0].Marker? then
      exists m: nat | lo < m <= hi ::
        (forall i: nat :: lo <= i < m ==> gone(i)) && Aligned(full, gone, pieces[1..], m, hi)
    else
      lo < hi && !gone(lo) && pieces[0] == Char(full[lo]) && Aligned(full, gone, pieces[1..], lo + 1, hi)
  }

  lemma {:induction false} AlignedConcat(
    full: Text, gone: nat -> bool, p: seq<Piece>, q: seq<Piece>, lo: nat, mid: nat, hi: nat)
    requires mid <= hi <= |full|
    requires Aligned(full, gone, p, lo, mid) && Aligned(full, gone, q, mid, hi)
    ensures Aligned(full, gone, p + q, lo, hi)
  {
    if p == [] {
      assert p + q == q;
    } else {
      assert (p + q)[1..] == p[1..] + q;
      if p[0].Marker? {
        var m: nat :| lo < m <= mid && (forall i: nat :: lo <= i < m ==> gone(i))
                      && Aligned(full, gone, p[1..], m, mid);
        AlignedConcat(full, gone, p[1..], q, m, mid, hi);
      } else {
        AlignedConcat(full, gone, p[1..], q, lo + 1, mid, hi);
      }
    }
  }

  lemma {:induction false} AlignedChars(full: Text, gone: nat -> bool, lo: nat, hi: nat)
    requires lo <= hi <= |full| && forall i: nat :: lo <= i < hi ==> !gone(i)
    ensures Aligned(full, gone, Chars(full[lo..hi]), lo, hi)
    decreases hi - lo
  {
    if lo < hi {
      AlignedChars(full, gone, lo + 1, hi);
      assert full[lo..hi][1..] == full[lo + 1..hi];
    }
  }

  lemma AlignedMarker(full: Text, gone: nat -> bool, lo: nat, hi: nat)
    requires lo < hi <= |full| && forall i: nat :: lo <= i < hi ==> gone(i)
    ensures Aligned(full, gone, [Marker], lo, hi)
  {
    assert Aligned(full, gone, [Marker][1..], hi, hi);
  }

  /** Nothing before the first occurrence is covered, nor anything before where the search starts. */
  lemma {:induction false} NotYetCovered(full: Text, secret: Text, from: nat, i: nat)
    requires secret != [] && from <= |full| && i < IndexFrom(full, secret, from)
    ensures !Covered(full, secret, from, i)
    decreases |full| - from
  {
    var k := IndexFrom(full, secret, from);
    if k <= |full| { NotYetCovered(full, secret, k + |secret|, i); }
  }

  /** From one search to the next: what is gone before, inside and after the occurrence found. */
  lemma GoneStep(full: Text, secret: Text, from: nat)
    requires secret != [] && from <= |full|
    ensures var k := IndexFrom(full, secret, from);
            && (forall i: nat :: i < k && i < |full| ==> !Gone(full, secret, from)(i))
            && (k <= |full| ==>
                  && (forall i: nat :: k <= i < k + |secret| ==> Gone(full, secret, from)(i))
                  && (forall i: nat :: k + |secret| <= i ==>
                        (Gone(full, secret, from)(i) <==> Gone(full, secret, k + |secret|)(i))))
  {
    forall i: nat | i < IndexFrom(full, secret, from) ensures !Covered(full, secret, from, i) {
      NotYetCovered(full, secret, from, i);
    }
  }

  /** The text up to a match and the marker for the match. */
  lemma MatchAligned(full: Text, gone: nat -> bool, out: seq<Piece>, lo: nat, cursor: nat, start: nat, end: nat)
    requires lo <= cursor <= start < end <= |full| && Aligned(full, gone, out, lo, cursor)
    requires forall i: nat :: cursor <= i < start ==> !gone(i)
    requires forall i: nat :: start <= i < end ==> gone(i)
    ensures Aligned(full, gone, out + Chars(full[cursor..start]) + [Marker], lo, end)
  {
    var chars := Chars(full[cursor..start]);
    AlignedChars(full, gone, cursor, start);
    AlignedConcat(full, gone, out, chars, lo, cursor, start);
    AlignedMarker(full, gone, start, end);
    AlignedConcat(full, gone, out + chars, [Marker], lo, start, end);
  }

  /** The redactor's page accounts for its positions. */
  lemma {:induction false} RedactAligned(
    full: Text, secret: Text, gone: nat -> bool, lo: nat, hi: nat, from: nat, cursor: nat, out: seq<Piece>)
    requires secret != [] && from <= |full| && lo <= cursor <= hi <= |full| && (cursor == lo || from >= cursor)
    requires Aligned(full, gone, out, lo, cursor)
    requires forall i: nat :: cursor <= i < hi ==> (gone(i) <==> Gone(full, secret, from)(i))
    ensures Aligned(full, gone, Redact(full, secret, lo, hi, from, cursor, out), lo, hi)
    decreases |full| - from
  {
    var k := IndexFrom(full, secret, from);
    GoneStep(full, secret, from);
    if k > |full| {
      AlignedChars(full, gone, cursor, hi);
      AlignedConcat(full, gone, out, Chars(full[cursor..hi]), lo, cursor, hi);
    } else {
      var next := k + |secret|;
      var start, end := Max(lo, k), Min(hi, next);
      if start < end {
        MatchAligned(full, gone, out, lo, cursor, start, end);
        RedactAligned(full, secret, gone, lo, hi, next, end, out + Chars(full[cursor..start]) + [Marker]);
      } else {
        RedactAligned(full, secret, gone, lo, hi, next, cursor, out);
      }
    }
  }

  // ------------------------------------------------------------------ what aligned pieces say

  /** The pieces with the markers dropped. */
  function Literal(p: seq<Piece>): Text {
    if p == [] then [] else (if p[0].Char? then [p[0].c] else []) + Literal(p[1..])
  }

  /** The characters at the positions of [lo, hi) that stay. */
  function Survivors(full: Text, gone: nat -> bool, lo: nat, hi: nat): Text
    requires lo <= hi <= |full|
    decreases hi - lo
  {
    if lo == hi then [] else (if gone(lo) then [] else [full[lo]]) + Survivors(full, gone, lo + 1, hi)
  }

  lemma {:induction false} SurvivorsSkip(full: Text, gone: nat -> bool, lo: nat, m: nat, hi: nat)
    requires lo <= m <= hi <= |full| && forall i: nat :: lo <= i < m ==> gone(i)
    ensures Survivors(full, gone, lo, hi) == Survivors(full, gone, m, hi)
    decreases m - lo
  {
    if lo < m { SurvivorsSkip(full, gone, lo + 1, m, hi); }
  }

  lemma {:induction false} AlignedLiteral(full: Text, gone: nat -> bool, p: seq<Piece>, lo: nat, hi: nat)
    requires lo <= hi <= |full| && Aligned(full, gone, p, lo, hi)
    ensures Literal(p) == Survivors(full, gone, lo, hi)
  {
    if p != [] {
      if p[0].Marker? {
        var m: nat :| lo < m <= hi && (forall i: nat :: lo <= i < m ==> gone(i)) && Aligned(full, gone, p[1..], m, hi);
        AlignedLiteral(full, gone, p[1..], m, hi);
        SurvivorsSkip(full, gone, lo, m, hi);
      } else {
        AlignedLiteral(full, gone, p[1..], lo + 1, hi);
      }
    }
  }

  lemma {:induction false} SurvivorsKeep(full: Text, gone: nat -> bool, lo: nat, m: nat, hi: nat)
    requires lo <= m <= hi <= |full| && forall i: nat :: lo <= i < m ==> !gone(i)
    ensures Survivors(full, gone, lo, hi) == full[lo..m] + Survivors(full, gone, m, hi)
    decreases m - lo
  {
    if lo < m {
      SurvivorsKeep(full, gone, lo + 1, m, hi);
      assert full[lo..m] == [full[lo]] + full[lo + 1..m];
    }
  }

  lemma {:induction false} SurvivorsAgree(full: Text, a: nat -> bool, b: nat -> bool, lo: nat, hi: nat)
    requires lo <= hi <= |full| && forall i: nat :: lo <= i < hi ==> (a(i) <==> b(i))
    ensures Survivors(full, a, lo, hi) == Survivors(full, b, lo, hi)
    decreases hi - lo
  {
    if lo < hi {
      assert a(lo) <==> b(lo);
      SurvivorsAgree(full, a, b, lo + 1, hi);
    }
  }

  /** Position by position or occurrence by occurrence, the same text remains. */
  lemma {:induction false} SurvivorsAreDeleted(full: Text, secret: Text, from: nat)
    requires secret != [] && from <= |full|
    ensures Survivors(full, Gone(full, secret, from), from, |full|) == Deleted(full, secret, from)
    decreases |full| - from
  {
    var k := IndexFrom(full, secret, from);
    var gone := Gone(full, secret, from);
    GoneStep(full, secret, from);
    if k > |full| {
      SurvivorsKeep(full, gone, from, |full|, |full|);
      assert full[from..|full|] == full[from..];
    } else {
      var next := k + |secret|;
      SurvivorsKeep(full, gone, from, k, |full|);
      SurvivorsSkip(full, gone, k, next, |full|);
      SurvivorsAgree(full, gone, Gone(full, secret, next), next, |full|);
      SurvivorsAreDeleted(full, secret, next);
    }
  }

  /** Every occurrence of the secret, overlapping ones included, has a covered position. */
  lemma {:induction false} OccurrencesAreHit(full: Text, secret: Text, from: nat, k: nat)
    requires secret != [] && from <= k <= |full| && OccursAt(full, secret, k)
    ensures exists i :: k <= i < k + |secret| && Covered(full, secret, from, i)
    decreases |full| - from
  {
    var m := IndexFrom(full, secret, from);
    IndexFromMeans(full, secret, from);
    assert m <= k;
    if k < m + |secret| {
      assert Covered(full, secret, from, k);
    } else {
      OccurrencesAreHit(full, secret, m + |secret|, k);
      var i :| k <= i < k + |secret| && Covered(full, secret, m + |secret|, i);
      assert Covered(full, secret, from, i);
    }
  }

  /** The characters in front of the first marker. */
  function FirstRun(p: seq<Piece>): Text {
    if p == [] || p[0].Marker? then [] else [p[0].c] + FirstRun(p[1..])
  }

  /** No stretch of characters without a marker in it contains the secret. */
  predicate RunsClean(p: seq<Piece>, secret: Text)
    decreases |p|
  {
    !Contains(FirstRun(p), secret) && (p == [] || RunsClean(p[1..], secret))
  }

  lemma {:induction false} FirstRunIsText(full: Text, gone: nat -> bool, p: seq<Piece>, lo: nat, hi: nat)
    requires lo <= hi <= |full| && Aligned(full, gone, p, lo, hi)
    ensures lo + |FirstRun(p)| <= hi && FirstRun(p) == full[lo..lo + |FirstRun(p)|]
    ensures forall i: nat :: lo <= i < lo + |FirstRun(p)| ==> !gone(i)
  {
    if p != [] && p[0].Char? {
      FirstRunIsText(full, gone, p[1..], lo + 1, hi);
      var n := |FirstRun(p)|;
      assert FirstRun(p) == [full[lo]] + full[lo + 1..lo + n];
      assert full[lo..lo + n] == [full[lo]] + full[lo + 1..lo + n];
    }
  }

  lemma SliceOfSlice(full: Text, lo: nat, hi: nat, a: nat, b: nat)
    requires lo <= hi <= |full| && a <= b <= hi - lo
    ensures full[lo..hi][a..b] == full[lo + a..lo + b]
  {
    assert forall i :: 0 <= i < b - a ==> full[lo..hi][a..b][i] == full[lo + a..lo + b][i];
  }

  /** A predicate on positions that meets every occurrence of the secret. */
  ghost predicate Meets(full: Text, secret: Text, gone: nat -> bool) {
    forall k: nat | OccursAt(full, secret, k) :: exists i: nat :: k <= i < k + |secret| && gone(i)
  }

  lemma {:induction false} AlignedClean(full: Text, secret: Text, gone: nat -> bool, p: seq<Piece>, lo: nat, hi: nat)
    requires lo <= hi <= |full| && Aligned(full, gone, p, lo, hi) && Meets(full, secret, gone)
    ensures RunsClean(p, secret)
    decreases |p|
  {
    RunIsClean(full, secret, gone, p, lo, hi);
    if p != [] {
      if p[0].Marker? {
        var m: nat :| lo < m <= hi && (forall i: nat :: lo <= i < m ==> gone(i)) && Aligned(full, gone, p[1..], m, hi);
        AlignedClean(full, secret, gone, p[1..], m, hi);
      } else {
        AlignedClean(full, secret, gone, p[1..], lo + 1, hi);
      }
    }
  }

  lemma OccursInside(full: Text, secret: Text, lo: nat, hi: nat, k: nat)
    requires lo <= hi <= |full| && OccursAt(full[lo..hi], secret, k)
    ensures OccursAt(full, secret, lo + k)
  {
    SliceOfSlice(full, lo, hi, k, k + |secret|);
  }

  lemma RunIsClean(full: Text, secret: Text, gone: nat -> bool, p: seq<Piece>, lo: nat, hi: nat)
    requires lo <= hi <= |full| && Aligned(full, gone, p, lo, hi) && Meets(full, secret, gone)
    ensures !Contains(FirstRun(p), secret)
  {
    var run := FirstRun(p);
    FirstRunIsText(full, gone, p, lo, hi);
    if Contains(run, secret) {
      var k :| 0 <= k <= |run| && OccursAt(run, secret, k);
      OccursInside(full, secret, lo, lo + |run|, k);
      assert false;
    }
  }

  lemma OccurrencesMeet(full: Text, secret: Text)
    requires secret != []
    ensures Meets(full, secret, Gone(full, secret, 0))
  {
    forall k: nat | OccursAt(full, secret, k)
      ensures exists i: nat :: k <= i < k + |secret| && Gone(full, secret, 0)(i)
    {
      OccurrencesAreHit(full, secret, 0, k);
      var i :| k <= i < k + |secret| && Covered(full, secret, 0, i);
      assert Gone(full, secret, 0)(i);
    }
  }

  // ------------------------------------------------------------------ a reader that follows the offsets

  /** The pages of a reader that asks for `sizes` in turn, each from the offset the page before it named. */
  ghost function WalkOf(full: Text, page: (nat, nat) -> seq<Piece>, sizes: seq<nat>, offset: nat): seq<Piece>
    requires offset <= |full|
    decreases |sizes|
  {
    if sizes == [] then []
    else
      var p := PageText(full, sizes[0], offset);
      page(p.offset, p.offset + |p.text|)
      + match p.next { case None => [] case Some(next) => WalkOf(full, page, sizes[1..], next) }
  }

  ghost function Redacted(full: Text, secret: Text): (nat, nat) -> seq<Piece> {
    (lo: nat, hi: nat) => if lo <= hi <= |full| then RedactedPage(full, secret, lo, hi) else []
  }

  /** The redacted pages of such a reader. */
  ghost function Walk(full: Text, secret: Text, sizes: seq<nat>, offset: nat): seq<Piece>
    requires offset <= |full|
  {
    WalkOf(full, Redacted(full, secret), sizes, offset)
  }

  /** Where that reader stops. */
  function WalkEnd(full: Text, sizes: seq<nat>, offset: nat): (end: nat)
    requires offset <= |full|
    ensures offset <= end <= |full|
    decreases |sizes|
  {
    if sizes == [] then offset
    else
      match PageText(full, sizes[0], offset).next
      case None => |full|
      case Some(next) => WalkEnd(full, sizes[1..], next)
  }

  function Sum(sizes: seq<nat>): nat { if sizes == [] then 0 else sizes[0] + Sum(sizes[1..]) }

  /** Following the offsets skips nothing and never runs past the end. */
  lemma {:induction false} WalkCovers(full: Text, sizes: seq<nat>, offset: nat)
    requires offset <= |full|
    ensures WalkEnd(full, sizes, offset) == Min(|full|, offset + Sum(sizes))
    decreases |sizes|
  {
    if sizes != [] {
      var p := PageText(full, sizes[0], offset);
      if p.next.Some? { WalkCovers(full, sizes[1..], p.next.value); }
    }
  }

  lemma PageAligned(full: Text, secret: Text, lo: nat, hi: nat)
    requires secret != [] && lo <= hi <= |full|
    ensures Aligned(full, Gone(full, secret, 0), RedactedPage(full, secret, lo, hi), lo, hi)
  {
    RedactAligned(full, secret, Gone(full, secret, 0), lo, hi, 0, lo, []);
  }

  /** Where a page of `size` characters from `offset` ends. */
  function PageEnd(full: Text, size: nat, offset: nat): (end: nat)
    requires offset <= |full|
    ensures offset <= end <= |full|
  {
    Min(|full|, offset + size)
  }

  lemma PageEnds(full: Text, size: nat, offset: nat)
    requires offset <= |full|
    ensures var p, end := PageText(full, size, offset), PageEnd(full, size, offset);
            p.offset == offset && offset + |p.text| == end && p.next == if end < |full| then Some(end) else None
  {
  }

  lemma WalkOnce(full: Text, page: (nat, nat) -> seq<Piece>, sizes: seq<nat>, offset: nat)
    requires offset <= |full| && sizes != []
    ensures var end := PageEnd(full, sizes[0], offset);
            if end < |full| then
              WalkEnd(full, sizes, offset) == WalkEnd(full, sizes[1..], end)
              && WalkOf(full, page, sizes, offset) == page(offset, end) + WalkOf(full, page, sizes[1..], end)
            else end == |full| == WalkEnd(full, sizes, offset) && WalkOf(full, page, sizes, offset) == page(offset, end)
  {
    PageEnds(full, sizes[0], offset);
    var end := PageEnd(full, sizes[0], offset);
    assert page(offset, end) + [] == page(offset, end);
  }

  /** Pages in front of a walk. */
  ghost predicate Composes(P: (seq<Piece>, nat, nat) -> bool, page: (nat, nat) -> seq<Piece>, bound: nat) {
    && (forall lo, hi :: 0 <= lo <= hi <= bound ==> P(page(lo, hi), lo, hi))
    && (forall q, lo: nat, mid: nat, hi: nat {:trigger page(lo, mid) + q, P(q, mid, hi)} ::
          lo <= mid <= hi <= bound && P(q, mid, hi) ==> P(page(lo, mid) + q, lo, hi))
  }

  lemma Compose(
    P: (seq<Piece>, nat, nat) -> bool, page: (nat, nat) -> seq<Piece>, bound: nat,
    q: seq<Piece>, lo: nat, mid: nat, hi: nat)
    requires Composes(P, page, bound) && lo <= mid <= hi <= bound
    ensures P(page(lo, mid), lo, mid)
    ensures P(q, mid, hi) ==> P(page(lo, mid) + q, lo, hi)
  {
    var _ := page(lo, mid) + q;
  }

  /** Whatever holds of every page, and of a page in front of what it holds of, holds of a whole walk. */
  lemma {:induction false} WalkInduction(
    full: Text, page: (nat, nat) -> seq<Piece>, sizes: seq<nat>, offset: nat, P: (seq<Piece>, nat, nat) -> bool)
    requires offset <= |full| && Composes(P, page, |full|)
    requires forall lo :: 0 <= lo <= |full| ==> P([], lo, lo)
    ensures P(WalkOf(full, page, sizes, offset), offset, WalkEnd(full, sizes, offset))
    decreases |sizes|
  {
    if sizes != [] {
      var end := PageEnd(full, sizes[0], offset);
      var rest, stop := sizes[1..], WalkEnd(full, sizes, offset);
      WalkOnce(full, page, sizes, offset);
      Compose(P, page, |full|, WalkOf(full, page, rest, end), offset, end, stop);
      if end < |full| { WalkInduction(full, page, rest, end, P); }
    }
  }

  lemma WalkAligned(full: Text, secret: Text, sizes: seq<nat>, offset: nat)
    requires secret != [] && offset <= |full|
    ensures Aligned(full, Gone(full, secret, 0), Walk(full, secret, sizes, offset),
                    offset, WalkEnd(full, sizes, offset))
  {
    var gone := Gone(full, secret, 0);
    var page := Redacted(full, secret);
    var P := (p: seq<Piece>, lo: nat, hi: nat) => lo <= hi <= |full| && Aligned(full, gone, p, lo, hi);
    forall lo, hi | 0 <= lo <= hi <= |full| ensures P(page(lo, hi), lo, hi) { PageAligned(full, secret, lo, hi); }
    forall q, lo: nat, mid: nat, hi: nat | lo <= mid <= hi <= |full| && P(q, mid, hi)
      ensures P(page(lo, mid) + q, lo, hi)
    {
      PageAligned(full, secret, lo, mid);
      AlignedConcat(full, gone, page(lo, mid), q, lo, mid, hi);
    }
    WalkInduction(full, page, sizes, offset, P);
  }

  /** Redaction does not depend on paging: whatever page sizes a reader uses, the pages with their
      markers dropped are the text with its leftmost non-overlapping occurrences deleted, and no run
      of characters between markers, across page boundaries too, contains the secret. */
  lemma RedactionIgnoresPaging(full: Text, secret: Text, sizes: seq<nat>)
    requires secret != [] && Sum(sizes) >= |full|
    ensures Literal(Walk(full, secret, sizes, 0)) == Deleted(full, secret, 0)
    ensures RunsClean(Walk(full, secret, sizes, 0), secret)
  {
    var p := Walk(full, secret, sizes, 0);
    WalkCovers(full, sizes, 0);
    WalkAligned(full, secret, sizes, 0);
    AlignedLiteral(full, Gone(full, secret, 0), p, 0, |full|);
    OccurrencesMeet(full, secret);
    AlignedClean(full, secret, Gone(full, secret, 0), p, 0, |full|);
    SurvivorsAreDeleted(full, secret, 0);
  }

  /** A reader that stops early has seen nothing but survivors, and still no secret. */
  lemma PartialReadIsClean(full: Text, secret: Text, sizes: seq<nat>)
    requires secret != []
    ensures Literal(Walk(full, secret, sizes, 0)) == Survivors(full, Gone(full, secret, 0), 0, WalkEnd(full, sizes, 0))
    ensures RunsClean(Walk(full, secret, sizes, 0), secret)
  {
    WalkAligned(full, secret, sizes, 0);
    AlignedLiteral(full, Gone(full, secret, 0), Walk(full, secret, sizes, 0), 0, WalkEnd(full, sizes, 0));
    OccurrencesMeet(full, secret);
    AlignedClean(full, secret, Gone(full, secret, 0), Walk(full, secret, sizes, 0), 0, WalkEnd(full, sizes, 0));
  }

  // ------------------------------------------------------------------ reading while the text grows

  /** m is where one of the leftmost non-overlapping occurrences from `from` on starts. */
  ghost predicate Leftmost(full: Text, secret: Text, from: nat, m: nat)
    requires secret != [] && from <= |full|
    decreases |full| - from
  {
    var k := IndexFrom(full, secret, from);
    k <= |full| && (m == k || Leftmost(full, secret, k + |secret|, m))
  }

  lemma {:induction false} LeftmostCovers(full: Text, secret: Text, from: nat, m: nat)
    requires secret != [] && from <= |full| && Leftmost(full, secret, from, m)
    ensures from <= m && Covered(full, secret, from, m + |secret| - 1)
    decreases |full| - from
  {
    var k := IndexFrom(full, secret, from);
    if m != k { LeftmostCovers(full, secret, k + |secret|, m); }
  }

  /** Every occurrence is met by one of them that starts no later. */
  lemma {:induction false} MetByLeftmost(full: Text, secret: Text, from: nat, k: nat) returns (m: nat)
    requires secret != [] && from <= k <= |full| && OccursAt(full, secret, k)
    ensures Leftmost(full, secret, from, m) && m <= k < m + |secret|
    decreases |full| - from
  {
    m := IndexFrom(full, secret, from);
    IndexFromMeans(full, secret, from);
    assert m <= k;
    if m + |secret| <= k { m := MetByLeftmost(full, secret, m + |secret|, k); }
  }

  lemma SameOccurrence(t: Text, full: Text, secret: Text, k: nat)
    requires t <= full && k + |secret| <= |t|
    ensures OccursAt(t, secret, k) <==> OccursAt(full, secret, k)
  {
    assert t == full[..|t|];
    assert t[k..k + |secret|] == full[k..k + |secret|];
  }

  /** The search finds in the longer text what it finds in the shorter one. */
  lemma SameIndex(t: Text, full: Text, secret: Text, from: nat)
    requires secret != [] && t <= full && from <= |t|
    requires IndexFrom(full, secret, from) + |secret| <= |t| || IndexFrom(t, secret, from) <= |t|
    ensures IndexFrom(t, secret, from) == IndexFrom(full, secret, from)
  {
    var k, m := IndexFrom(t, secret, from), IndexFrom(full, secret, from);
    IndexFromMeans(t, secret, from);
    IndexFromMeans(full, secret, from);
    if m + |secret| <= |t| {
      SameOccurrence(t, full, secret, m);
      assert k <= m;
    }
    assert k + |secret| <= |t|;
    SameOccurrence(t, full, secret, k);
    assert m <= k;
    SameOccurrence(t, full, secret, m);
    assert k <= m;
  }

  /** The leftmost occurrences that fit into a text are the same ones however the text goes on. */
  lemma {:induction false} LeftmostIsStable(t: Text, full: Text, secret: Text, from: nat, m: nat)
    requires secret != [] && t <= full && from <= |t| && m + |secret| <= |t|
    ensures Leftmost(full, secret, from, m) <==> Leftmost(t, secret, from, m)
    decreases |t| - from
  {
    var k, l := IndexFrom(t, secret, from), IndexFrom(full, secret, from);
    if Leftmost(full, secret, from, m) && m != l { LeftmostCovers(full, secret, l + |secret|, m); }
    if k <= |t| || (l <= |full| && l + |secret| <= |t|) {
      SameIndex(t, full, secret, from);
      LeftmostIsStable(t, full, secret, k + |secret|, m);
    }
  }

  /** One read: the text as it was then, and the page size asked for. */
  datatype Poll = Poll(text: Text, size: nat)

  predicate Growing(polls: seq<Poll>, full: Text) {
    && (forall i | 0 <= i < |polls| :: polls[i].text <= full)
    && (forall i, j | 0 <= i < j < |polls| :: |polls[i].text| <= |polls[j].text|)
  }

  /** The redacted pages of a reader that goes on where the page before ended. */
  ghost function GrowingWalk(polls: seq<Poll>, secret: Text, offset: nat): seq<Piece>
    requires polls != [] ==> offset <= |polls[0].text|
    requires forall i, j | 0 <= i < j < |polls| :: |polls[i].text| <= |polls[j].text|
  {
    if polls == [] then []
    else
      var end := PageEnd(polls[0].text, polls[0].size, offset);
      RedactedPage(polls[0].text, secret, offset, end) + GrowingWalk(polls[1..], secret, end)
  }

  ghost function GrowingEnd(polls: seq<Poll>, offset: nat): (end: nat)
    requires polls != [] ==> offset <= |polls[0].text|
    requires forall i, j | 0 <= i < j < |polls| :: |polls[i].text| <= |polls[j].text|
    ensures offset <= end && (polls != [] ==> end <= |polls[|polls| - 1].text|)
  {
    if polls == [] then offset else GrowingEnd(polls[1..], PageEnd(polls[0].text, polls[0].size, offset))
  }

  /** Position i was hidden in the text from which it was read. */
  ghost predicate Hidden(polls: seq<Poll>, secret: Text, offset: nat, i: nat)
    requires secret != [] && (polls != [] ==> offset <= |polls[0].text|)
    requires forall i, j | 0 <= i < j < |polls| :: |polls[i].text| <= |polls[j].text|
  {
    polls != [] &&
    var end := PageEnd(polls[0].text, polls[0].size, offset);
    if i < end then Covered(polls[0].text, secret, 0, i) else Hidden(polls[1..], secret, end, i)
  }

  ghost function HiddenIn(polls: seq<Poll>, secret: Text, offset: nat): nat -> bool
    requires secret != [] && (polls != [] ==> offset <= |polls[0].text|)
    requires forall i, j | 0 <= i < j < |polls| :: |polls[i].text| <= |polls[j].text|
  {
    (i: nat) => Hidden(polls, secret, offset, i)
  }

  /** Alignment looks only at the positions it speaks of. */
  lemma {:induction false} AlignedTransfer(
    t: Text, full: Text, g: nat -> bool, h: nat -> bool, p: seq<Piece>, lo: nat, hi: nat)
    requires hi <= |t| && hi <= |full| && Aligned(t, g, p, lo, hi)
    requires forall i: nat :: lo <= i < hi ==> t[i] == full[i]
    requires forall i: nat :: lo <= i < hi ==> (g(i) <==> h(i))
    ensures Aligned(full, h, p, lo, hi)
  {
    if p != [] {
      if p[0].Marker? {
        var m: nat :| lo < m <= hi && (forall i: nat :: lo <= i < m ==> g(i)) && Aligned(t, g, p[1..], m, hi);
        AlignedTransfer(t, full, g, h, p[1..], m, hi);
      } else {
        AlignedTransfer(t, full, g, h, p[1..], lo + 1, hi);
      }
    }
  }

  lemma {:induction false} GrowingAligned(polls: seq<Poll>, full: Text, secret: Text, offset: nat)
    requires secret != [] && Growing(polls, full) && (polls != [] ==> offset <= |polls[0].text|) && offset <= |full|
    ensures GrowingEnd(polls, offset) <= |full|
    ensures Aligned(full, HiddenIn(polls, secret, offset), GrowingWalk(polls, secret, offset),
                    offset, GrowingEnd(polls, offset))
  {
    if polls != [] {
      var t, rest := polls[0].text, polls[1..];
      var end, stop := PageEnd(t, polls[0].size, offset), GrowingEnd(polls, offset);
      var hidden := HiddenIn(polls, secret, offset);
      var page := RedactedPage(t, secret, offset, end);
      GrowingAligned(rest, full, secret, end);
      PageAligned(t, secret, offset, end);
      AlignedTransfer(t, full, Gone(t, secret, 0), hidden, page, offset, end);
      AlignedTransfer(full, full, HiddenIn(rest, secret, end), hidden, GrowingWalk(rest, secret, end), end, stop);
      AlignedConcat(full, hidden, page, GrowingWalk(rest, secret, end), offset, end, stop);
    }
  }

  /** The last position of a leftmost occurrence was hidden when it was read. */
  lemma {:induction false} LastIsHidden(polls: seq<Poll>, full: Text, secret: Text, offset: nat, m: nat)
    requires secret != [] && Growing(polls, full) && (polls != [] ==> offset <= |polls[0].text|)
    requires Leftmost(full, secret, 0, m) && offset <= m + |secret| - 1 < GrowingEnd(polls, offset)
    ensures Hidden(polls, secret, offset, m + |secret| - 1)
  {
    var t := polls[0].text;
    var end := PageEnd(t, polls[0].size, offset);
    if m + |secret| - 1 < end {
      LeftmostIsStable(t, full, secret, 0, m);
      LeftmostCovers(t, secret, 0, m);
    } else {
      LastIsHidden(polls[1..], full, secret, end, m);
    }
  }

  lemma HiddenMeets(polls: seq<Poll>, full: Text, secret: Text)
    requires secret != [] && Growing(polls, full)
    requires GrowingEnd(polls, 0) <= |full|
    ensures Meets(full[..GrowingEnd(polls, 0)], secret, HiddenIn(polls, secret, 0))
  {
    var stop, hidden := GrowingEnd(polls, 0), HiddenIn(polls, secret, 0);
    forall k: nat | OccursAt(full[..stop], secret, k)
      ensures exists i: nat :: k <= i < k + |secret| && hidden(i)
    {
      assert full[0..stop] == full[..stop];
      OccursInside(full, secret, 0, stop, k);
      var m := MetByLeftmost(full, secret, 0, k);
      LastIsHidden(polls, full, secret, 0, m);
      assert hidden(m + |secret| - 1);
    }
  }

  /** Redaction holds while the text grows: whatever was appended between two reads and whatever page
      sizes were asked for, the characters shown are those of the positions not hidden when they were read,
      and no run of them between markers contains the secret, though an occurrence may have been cut by
      the end of the text as it was then. */
  lemma GrowingReadsAreClean(polls: seq<Poll>, full: Text, secret: Text)
    requires secret != [] && Growing(polls, full)
    ensures GrowingEnd(polls, 0) <= |full|
    ensures Literal(GrowingWalk(polls, secret, 0))
         == Survivors(full, HiddenIn(polls, secret, 0), 0, GrowingEnd(polls, 0))
    ensures RunsClean(GrowingWalk(polls, secret, 0), secret)
  {
    GrowingAligned(polls, full, secret, 0);
    AlignedLiteral(full, HiddenIn(polls, secret, 0), GrowingWalk(polls, secret, 0), 0, GrowingEnd(polls, 0));
    HiddenMeets(polls, full, secret);
    CleanUpTo(full, secret, HiddenIn(polls, secret, 0), GrowingWalk(polls, secret, 0), GrowingEnd(polls, 0));
  }

  lemma CleanUpTo(full: Text, secret: Text, hidden: nat -> bool, p: seq<Piece>, stop: nat)
    requires stop <= |full| && Aligned(full, hidden, p, 0, stop) && Meets(full[..stop], secret, hidden)
    ensures RunsClean(p, secret)
  {
    AlignedTransfer(full, full[..stop], hidden, hidden, p, 0, stop);
    AlignedClean(full[..stop], secret, hidden, p, 0, stop);
  }
}
