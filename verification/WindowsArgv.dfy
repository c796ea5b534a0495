/** Quoting an argument vector for a `.cmd`/`.bat` shim, and the two parsers that undo it.

    Text is a sequence of Unicode code points, as a JavaScript string is when it is iterated; a
    lone surrogate counts as a code point of its own. */
module WindowsArgv {

  type CodePoint = c: nat | c <= 0x10FFFF
  type Text = seq<CodePoint>

  const TAB: CodePoint := 9
  const SPACE: CodePoint := 32
  const QUOTE: CodePoint := 34
  const BACKSLASH: CodePoint := 92
  const CARET: CodePoint := 94

  /** space ! " % & ( ) * , ; < > ? [ ] ^ ` | */
  predicate IsMeta(c: CodePoint) {
    || 32 <= c <= 34 || 37 <= c <= 38 || 40 <= c <= 42 || c == 44 || 59 <= c <= 60 || 62 <= c <= 63
    || c == 91 || 93 <= c <= 94 || c == 96 || c == 124
  }

  function Repeat(n: nat): (t: Text)
    ensures |t| == n
  {
    if n == 0 then [] else [BACKSLASH] + Repeat(n - 1)
  }

  // ------------------------------------------------------------------ the printer

  /** The encoding of `v` when `n` backslashes are still unwritten, up to the closing quote. */
  function Encode(v: Text, n: nat): Text {
    if v == [] then Repeat(2 * n)
    else if v[0] == BACKSLASH then Encode(v[1..], n + 1)
    else if v[0] == QUOTE then Repeat(2 * n + 1) + [QUOTE] + Encode(v[1..], 0)
    else Repeat(n) + [v[0]] + Encode(v[1..], 0)
  }

  function Quote(v: Text): Text { [QUOTE] + Encode(v, 0) + [QUOTE] }

  function EscapeChar(c: CodePoint): Text { if IsMeta(c) then [CARET, c] else [c] }

  function Escape(v: Text): Text {
    if v == [] then [] else EscapeChar(v[0]) + Escape(v[1..])
  }

  /** The escaped arguments, each behind a separating space. */
  function EscapedTail(args: seq<Text>): Text {
    if args == [] then [] else [SPACE] + Escape(Quote(args[0])) + EscapedTail(args[1..])
  }

  /** The last element of the `cmd.exe /d /s /c` vector for an already normalised shim path. */
  function Composite(path: Text, args: seq<Text>): Text {
    [QUOTE] + (Escape(path) + EscapedTail(args)) + [QUOTE]
  }

  lemma Regroup(a: Text, b: Text, c: Text, d: Text)
    ensures (a + b + c) + d == a + (b + c + d)
  {
  }

  lemma Associate(a: Text, b: Text, c: Text)
    ensures (a + b) + c == a + (b + c)
  {
  }

  lemma EncodeFrom(v: Text, i: nat, n: nat)
    requires i < |v|
    ensures Encode(v[i..], n) ==
      if v[i] == BACKSLASH then Encode(v[i + 1..], n + 1)
      else if v[i] == QUOTE then Repeat(2 * n + 1) + [QUOTE] + Encode(v[i + 1..], 0)
      else Repeat(n) + [v[i]] + Encode(v[i + 1..], 0)
  {
    assert v[i..][1..] == v[i + 1..];
  }

  lemma EscapeFrom(v: Text, i: nat)
    requires i < |v|
    ensures Escape(v[i..]) == EscapeChar(v[i]) + Escape(v[i + 1..])
  {
    assert v[i..][1..] == v[i + 1..];
  }

  /** quoteWindowsArgForCommandLineToArgv. */
  method QuoteArg(value: Text) returns (quoted: Text)
    ensures quoted == Quote(value)
  {
    var encoded: Text := [];
    var backslashes := 0;
    for i := 0 to |value|
      invariant encoded + Encode(value[i..], backslashes) == Encode(value, 0)
    {
      var ch := value[i];
      EncodeFrom(value, i, backslashes);
      if ch == BACKSLASH {
        backslashes := backslashes + 1;
      } else if ch == QUOTE {
        Regroup(encoded, Repeat(2 * backslashes + 1), [QUOTE], Encode(value[i + 1..], 0));
        encoded := encoded + Repeat(backslashes * 2 + 1) + [QUOTE];
        backslashes := 0;
      } else {
        Regroup(encoded, Repeat(backslashes), [ch], Encode(value[i + 1..], 0));
        encoded := encoded + Repeat(backslashes) + [ch];
        backslashes := 0;
      }
    }
    encoded := encoded + Repeat(backslashes * 2);
    quoted := [QUOTE] + encoded + [QUOTE];
  }

  /** escapeWindowsCmdMetaChars. */
  method EscapeMetaChars(value: Text) returns (escaped: Text)
    ensures escaped == Escape(value)
  {
    escaped := [];
    for i := 0 to |value|
      invariant escaped + Escape(value[i..]) == Escape(value)
    {
      EscapeFrom(value, i);
      ghost var before := escaped;
      if IsMeta(value[i]) {
        escaped := escaped + [CARET];
      }
      escaped := escaped + [value[i]];
      assert escaped == before + EscapeChar(value[i]);
      Associate(before, EscapeChar(value[i]), Escape(value[i + 1..]));
    }
  }

  /** buildWindowsCmdCommand between the outer quotes of resolveCommandForSpawn. */
  method BuildComposite(path: Text, args: seq<Text>) returns (line: Text)
    ensures line == Composite(path, args)
  {
    line := EscapeMetaChars(path);
    for i := 0 to |args|
      invariant line + EscapedTail(args[i..]) == Escape(path) + EscapedTail(args)
    {
      assert args[i..][0] == args[i] && args[i..][1..] == args[i + 1..];
      var quoted := QuoteArg(args[i]);
      var escaped := EscapeMetaChars(quoted);
      Regroup(line, [SPACE], escaped, EscapedTail(args[i + 1..]));
      assert EscapedTail(args[i..]) == [SPACE] + escaped + EscapedTail(args[i + 1..]);
      line := line + [SPACE] + escaped;
    }
    line := [QUOTE] + line + [QUOTE];
  }

  // ------------------------------------------------------------------ the readers

  /** One character as cmd.exe reads it; `literal` when a caret or quotes took its meaning away. */
  datatype Read = Read(ch: CodePoint, literal: bool)

  /** How cmd.exe reads a command: a caret outside quotes makes the next character literal, a bare
      quote switches quoting on or off. */
  function CmdRead(t: Text, quoted: bool): seq<Read> {
    if t == [] then []
    else if t[0] == CARET && !quoted then
      if |t| == 1 then [] else [Read(t[1], true)] + CmdRead(t[2..], quoted)
    else if t[0] == QUOTE then [Read(QUOTE, false)] + CmdRead(t[1..], !quoted)
    else [Read(t[0], quoted)] + CmdRead(t[1..], quoted)
  }

  /** What cmd.exe gives a meaning of its own: ! " % & ( ) * , ; < > ? [ ] ^ ` | */
  const CMD_SPECIAL: set<CodePoint> := {33, 34, 37, 38, 40, 41, 42, 44, 59, 60, 62, 63, 91, 93, 94, 96, 124}

  /** The text cmd.exe passes on. */
  function Chars(r: seq<Read>): Text {
    if r == [] then [] else [r[0].ch] + Chars(r[1..])
  }

  /** `cmd /s /c "..."` drops the first and the last quote. */
  function StripOuter(line: Text): Text
    requires |line| >= 2
  {
    line[1..|line| - 1]
  }

  predicate IsBlank(c: CodePoint) { c == SPACE || c == TAB }

  /** CommandLineToArgvW after the program name: `cur` is the argument being read, `started` says
      that there is one, `n` backslashes are still undecided. */
  function ParseArgs(t: Text, cur: Text, started: bool, quoted: bool, n: nat): seq<Text>
    decreases |t|
  {
    if t == [] then
      if started || n > 0 then [cur + Repeat(n)] else []
    else if t[0] == BACKSLASH then
      ParseArgs(t[1..], cur, started, quoted, n + 1)
    else if t[0] == QUOTE then
      if n % 2 == 1 then ParseArgs(t[1..], cur + Repeat(n / 2) + [QUOTE], true, quoted, 0)
      else if quoted && |t| > 1 && t[1] == QUOTE then
        ParseArgs(t[2..], cur + Repeat(n / 2) + [QUOTE], true, quoted, 0)
      else ParseArgs(t[1..], cur + Repeat(n / 2), true, !quoted, 0)
    else if IsBlank(t[0]) && !quoted then
      if started || n > 0 then [cur + Repeat(n)] + ParseArgs(t[1..], [], false, false, 0)
      else ParseArgs(t[1..], [], false, false, 0)
    else
      ParseArgs(t[1..], cur + Repeat(n) + [t[0]], true, quoted, 0)
  }

  // ------------------------------------------------------------------ CommandLineToArgvW undoes Quote

  lemma {:induction false} ParseBackslashes(m: nat, rest: Text, cur: Text, started: bool, quoted: bool, n: nat)
    ensures ParseArgs(Repeat(m) + rest, cur, started, quoted, n) == ParseArgs(rest, cur, started, quoted, n + m)
  {
    if m == 0 {
      assert Repeat(m) + rest == rest;
    } else {
      assert (Repeat(m) + rest)[1..] == Repeat(m - 1) + rest;
      ParseBackslashes(m - 1, rest, cur, started, quoted, n + 1);
    }
  }

  /** Inside quotes, n backslashes stand for themselves before any other character. */
  lemma ParsePlain(n: nat, c: CodePoint, body: Text, cur: Text)
    requires c != BACKSLASH && c != QUOTE
    ensures ParseArgs(Repeat(n) + ([c] + body), cur, true, true, 0)
         == ParseArgs(body, cur + Repeat(n) + [c], true, true, 0)
  {
    ParseBackslashes(n, [c] + body, cur, true, true, 0);
    assert ([c] + body)[1..] == body;
  }

  lemma ParseOddQuote(m: nat, t: Text, cur: Text)
    requires m % 2 == 1 && t != [] && t[0] == QUOTE
    ensures ParseArgs(t, cur, true, true, m) == ParseArgs(t[1..], cur + Repeat(m / 2) + [QUOTE], true, true, 0)
  {
  }

  /** Inside quotes, 2n+1 backslashes and a quote stand for n backslashes and a quote. */
  lemma ParseEscapedQuote(n: nat, m: nat, body: Text, cur: Text)
    requires m == 2 * n + 1
    ensures ParseArgs(Repeat(m) + ([QUOTE] + body), cur, true, true, 0)
         == ParseArgs(body, cur + Repeat(n) + [QUOTE], true, true, 0)
  {
    var t := [QUOTE] + body;
    assert ParseArgs(Repeat(m) + t, cur, true, true, 0) == ParseArgs(t, cur, true, true, m) by {
      ParseBackslashes(m, t, cur, true, true, 0);
    }
    assert ParseArgs(t, cur, true, true, m) == ParseArgs(t[1..], cur + Repeat(m / 2) + [QUOTE], true, true, 0) by {
      ParseOddQuote(m, t, cur);
    }
    assert t[1..] == body;
  }

  lemma ParseEvenQuote(m: nat, n: nat, t: Text, cur: Text)
    requires m == 2 * n && t != [] && t[0] == QUOTE && (|t| == 1 || t[1] != QUOTE)
    ensures ParseArgs(t, cur, true, true, m) == ParseArgs(t[1..], cur + Repeat(n), true, false, 0)
  {
    assert m % 2 == 0 && m / 2 == n;
  }

  /** 2n backslashes and a quote stand for n backslashes and the end of the quotes. */
  lemma ParseClosing(n: nat, m: nat, tail: Text, cur: Text)
    requires m == 2 * n
    requires tail == [] || tail[0] != QUOTE
    ensures ParseArgs(Repeat(m) + ([QUOTE] + tail), cur, true, true, 0)
         == ParseArgs(tail, cur + Repeat(n), true, false, 0)
  {
    var rest := [QUOTE] + tail;
    assert rest[1..] == tail && (tail != [] ==> rest[1] == tail[0]);
    assert ParseArgs(Repeat(m) + rest, cur, true, true, 0) == ParseArgs(rest, cur, true, true, m) by {
      ParseBackslashes(m, rest, cur, true, true, 0);
    }
    assert ParseArgs(rest, cur, true, true, m) == ParseArgs(rest[1..], cur + Repeat(n), true, false, 0) by {
      ParseEvenQuote(m, n, rest, cur);
    }
  }

  lemma EncodeShape(v: Text, n: nat, tail: Text)
    requires v != [] && v[0] != BACKSLASH
    ensures Encode(v, n) + [QUOTE] + tail
         == Repeat(if v[0] == QUOTE then 2 * n + 1 else n) + ([v[0]] + (Encode(v[1..], 0) + [QUOTE] + tail))
  {
  }

  lemma {:induction false} RepeatSnoc(n: nat)
    ensures Repeat(n + 1) == Repeat(n) + [BACKSLASH]
  {
    if n > 0 { RepeatSnoc(n - 1); }
  }

  /** Inside quotes, the encoded value followed by its closing quote reads back as the value. */
  lemma {:induction false} ParseEncoded(v: Text, n: nat, tail: Text, cur: Text)
    requires tail == [] || tail[0] != QUOTE
    ensures ParseArgs(Encode(v, n) + [QUOTE] + tail, cur, true, true, 0)
         == ParseArgs(tail, cur + Repeat(n) + v, true, false, 0)
    decreases |v|
  {
    if v == [] {
      assert Encode(v, n) + [QUOTE] + tail == Repeat(2 * n) + ([QUOTE] + tail);
      ParseClosing(n, 2 * n, tail, cur);
      assert cur + Repeat(n) + v == cur + Repeat(n);
    } else if v[0] == BACKSLASH {
      ParseEncoded(v[1..], n + 1, tail, cur);
      RepeatSnoc(n);
      assert cur + Repeat(n + 1) + v[1..] == cur + Repeat(n) + v;
    } else {
      ParseEncodedHead(v, n, tail, cur);
      var next := cur + Repeat(n) + [v[0]];
      ParseEncoded(v[1..], 0, tail, next);
      assert next + Repeat(0) + v[1..] == cur + Repeat(n) + v;
    }
  }

  lemma ParseEncodedHead(v: Text, n: nat, tail: Text, cur: Text)
    requires v != [] && v[0] != BACKSLASH
    ensures ParseArgs(Encode(v, n) + [QUOTE] + tail, cur, true, true, 0)
         == ParseArgs(Encode(v[1..], 0) + [QUOTE] + tail, cur + Repeat(n) + [v[0]], true, true, 0)
  {
    var body := Encode(v[1..], 0) + [QUOTE] + tail;
    var m := if v[0] == QUOTE then 2 * n + 1 else n;
    assert Encode(v, n) + [QUOTE] + tail == Repeat(m) + ([v[0]] + body) by { EncodeShape(v, n, tail); }
    assert ParseArgs(Repeat(m) + ([v[0]] + body), cur, true, true, 0)
        == ParseArgs(body, cur + Repeat(n) + [v[0]], true, true, 0) by {
      if v[0] == QUOTE { ParseEscapedQuote(n, m, body, cur); } else { ParsePlain(n, v[0], body, cur); }
    }
  }

  /** The quoted arguments, each behind a separating space, as CommandLineToArgvW receives them. */
  function QuotedTail(args: seq<Text>): Text {
    if args == [] then [] else [SPACE] + Quote(args[0]) + QuotedTail(args[1..])
  }

  /** `started` and `cur` describe an argument still open in front of the tail. */
  lemma {:induction false} ParseQuotedTail(args: seq<Text>, cur: Text, started: bool)
    requires !started ==> cur == []
    ensures ParseArgs(QuotedTail(args), cur, started, false, 0) == (if started then [cur] else []) + args
    decreases |args|
  {
    assert cur + Repeat(0) == cur;
    if args != [] {
      var v, more := args[0], QuotedTail(args[1..]);
      var t := QuotedTail(args);
      var inner := Encode(v, 0) + [QUOTE] + more;
      assert t[0] == SPACE && t[1..] == [QUOTE] + inner;
      assert ([QUOTE] + inner)[1..] == inner;
      assert [] + Repeat(0) == [] && [] + Repeat(0) + v == v;
      assert ParseArgs(t[1..], [], false, false, 0) == ParseArgs(inner, [], true, true, 0);
      ParseEncoded(v, 0, more, []);
      ParseQuotedTail(args[1..], v, true);
      assert args == [v] + args[1..];
    }
  }

  // ------------------------------------------------------------------ cmd.exe undoes Escape

  /** Every character of `v`, literal exactly when it is a metacharacter. */
  function Defused(v: Text): seq<Read> {
    if v == [] then [] else [Read(v[0], IsMeta(v[0]))] + Defused(v[1..])
  }

  lemma ReadOne(c: CodePoint, rest: Text)
    ensures CmdRead(EscapeChar(c) + rest, false) == [Read(c, IsMeta(c))] + CmdRead(rest, false)
  {
    var t := EscapeChar(c) + rest;
    if IsMeta(c) {
      assert t[2..] == rest;
    } else {
      assert t[1..] == rest;
    }
  }

  lemma {:induction false} ReadEscaped(v: Text, rest: Text)
    ensures CmdRead(Escape(v) + rest, false) == Defused(v) + CmdRead(rest, false)
  {
    if v == [] {
      assert Escape(v) + rest == rest;
      assert Defused(v) + CmdRead(rest, false) == CmdRead(rest, false);
    } else {
      ReadEscaped(v[1..], rest);
      ReadOne(v[0], Escape(v[1..]) + rest);
      assert Escape(v) + rest == EscapeChar(v[0]) + (Escape(v[1..]) + rest);
      assert Defused(v) + CmdRead(rest, false) == [Read(v[0], IsMeta(v[0]))] + (Defused(v[1..]) + CmdRead(rest, false));
    }
  }

  /** What cmd.exe reads after the program name: bare separating spaces and defused arguments. */
  function DefusedTail(args: seq<Text>): seq<Read> {
    if args == [] then [] else [Read(SPACE, false)] + Defused(Quote(args[0])) + DefusedTail(args[1..])
  }

  lemma {:induction false} ReadEscapedTail(args: seq<Text>)
    ensures CmdRead(EscapedTail(args), false) == DefusedTail(args)
  {
    if args != [] {
      var t := EscapedTail(args);
      assert t[1..] == Escape(Quote(args[0])) + EscapedTail(args[1..]);
      ReadEscaped(Quote(args[0]), EscapedTail(args[1..]));
      ReadEscapedTail(args[1..]);
      assert t[0] == SPACE;
      assert CmdRead(t, false) == [Read(SPACE, false)] + CmdRead(t[1..], false);
    }
  }

  lemma {:induction false} CharsConcat(a: seq<Read>, b: seq<Read>)
    ensures Chars(a + b) == Chars(a) + Chars(b)
  {
    if a == [] {
      assert a + b == b;
    } else {
      assert (a + b)[1..] == a[1..] + b;
      CharsConcat(a[1..], b);
    }
  }

  lemma {:induction false} CharsDefused(v: Text)
    ensures Chars(Defused(v)) == v
    ensures forall i :: 0 <= i < |Defused(v)| ==> Defused(v)[i].literal == IsMeta(Defused(v)[i].ch)
  {
    if v != [] {
      assert Defused(v)[1..] == Defused(v[1..]);
      CharsDefused(v[1..]);
    }
  }

  lemma {:induction false} CharsDefusedTail(args: seq<Text>)
    ensures Chars(DefusedTail(args)) == QuotedTail(args)
    ensures forall i :: 0 <= i < |DefusedTail(args)| && !DefusedTail(args)[i].literal
              ==> DefusedTail(args)[i].ch == SPACE || !IsMeta(DefusedTail(args)[i].ch)
  {
    if args != [] {
      var v := Quote(args[0]);
      CharsDefused(v);
      CharsDefusedTail(args[1..]);
      CharsConcat([Read(SPACE, false)] + Defused(v), DefusedTail(args[1..]));
      CharsConcat([Read(SPACE, false)], Defused(v));
      assert Chars([Read(SPACE, false)]) == [SPACE];
    }
  }

  // ------------------------------------------------------------------ main results

  /** The round trip, for every shim path and every argument vector, empty strings and runs of
      backslashes and quotes included: cmd.exe passes on exactly the path followed by the quoted
      arguments, and CommandLineToArgvW reads the original arguments back. */
  lemma RoundTrip(path: Text, args: seq<Text>)
    ensures var passed := Chars(CmdRead(StripOuter(Composite(path, args)), false));
      && passed == path + QuotedTail(args)
      && ParseArgs(passed[|path|..], [], false, false, 0) == args
  {
    var inner := Escape(path) + EscapedTail(args);
    assert StripOuter(Composite(path, args)) == inner;
    ReadEscaped(path, EscapedTail(args));
    ReadEscapedTail(args);
    CharsConcat(Defused(path), DefusedTail(args));
    CharsDefused(path);
    CharsDefusedTail(args);
    assert (path + QuotedTail(args))[|path|..] == QuotedTail(args);
    ParseQuotedTail(args, [], false);
  }

  /** No metacharacter of the path or of an argument keeps its meaning for cmd.exe: the only bare
      ones are the spaces between tokens. */
  lemma NothingActive(path: Text, args: seq<Text>)
    ensures var r := CmdRead(StripOuter(Composite(path, args)), false);
      forall i :: 0 <= i < |r| && !r[i].literal ==> r[i].ch == SPACE || !IsMeta(r[i].ch)
  {
    assert StripOuter(Composite(path, args)) == Escape(path) + EscapedTail(args);
    ReadEscaped(path, EscapedTail(args));
    ReadEscapedTail(args);
    CharsDefused(path);
    CharsDefusedTail(args);
  }

  /** In cmd.exe's terms: every character it could act on reaches it as a literal, and of the spaces only
      the one in front of each argument separates. */
  lemma ShellSeesOnlyTokens(path: Text, args: seq<Text>)
    ensures var r := CmdRead(StripOuter(Composite(path, args)), false);
      (forall i | 0 <= i < |r| && r[i].ch in CMD_SPECIAL :: r[i].literal) && BareSpaces(r) == |args|
  {
    NothingActive(path, args);
    assert StripOuter(Composite(path, args)) == Escape(path) + EscapedTail(args);
    ReadEscaped(path, EscapedTail(args));
    ReadEscapedTail(args);
    BareConcat(Defused(path), DefusedTail(args));
    DefusedHasNoBare(path);
    BareTail(args);
  }

  function BareSpaces(r: seq<Read>): nat {
    if r == [] then 0 else (if r[0] == Read(SPACE, false) then 1 else 0) + BareSpaces(r[1..])
  }

  lemma {:induction false} BareConcat(a: seq<Read>, b: seq<Read>)
    ensures BareSpaces(a + b) == BareSpaces(a) + BareSpaces(b)
  {
    if a == [] {
      assert a + b == b;
    } else {
      assert (a + b)[1..] == a[1..] + b;
      BareConcat(a[1..], b);
    }
  }

  lemma {:induction false} DefusedHasNoBare(v: Text)
    ensures BareSpaces(Defused(v)) == 0
  {
    if v != [] {
      assert Defused(v)[1..] == Defused(v[1..]);
      DefusedHasNoBare(v[1..]);
    }
  }

  lemma {:induction false} BareTail(args: seq<Text>)
    ensures BareSpaces(DefusedTail(args)) == |args|
  {
    if args != [] {
      var first := [Read(SPACE, false)] + Defused(Quote(args[0]));
      assert first[1..] == Defused(Quote(args[0]));
      DefusedHasNoBare(Quote(args[0]));
      BareConcat(first, DefusedTail(args[1..]));
      BareTail(args[1..]);
    }
  }

  /** And nothing else is touched: text without such characters and spaces is passed on as it is. */
  lemma {:induction false} PlainStaysPlain(v: Text)
    requires forall i | 0 <= i < |v| :: v[i] != SPACE && v[i] !in CMD_SPECIAL
    ensures Escape(v) == v
  {
    if v != [] { PlainStaysPlain(v[1..]); }
  }

  /** Different argument vectors never share a command line. */
  lemma CompositeInjective(path: Text, a: seq<Text>, b: seq<Text>)
    requires Composite(path, a) == Composite(path, b)
    ensures a == b
  {
    RoundTrip(path, a);
    RoundTrip(path, b);
  }
}
