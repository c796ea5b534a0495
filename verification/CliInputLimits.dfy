/** Admission of a command line by size: a bound before the command is resolved, the exact vector
    after it.  Sizes are UTF-8 bytes (section 3 of RFC 3629). */
module CliInputLimits {
  import opened WindowsArgv

  const MAX_ARGV_LINUX := 1024 * 1024
  const MAX_ARGV_POSIX := 128 * 1024
  const MAX_ARGV_WINDOWS := 30_000
  const MAX_ARGV_WINDOWS_CMD := 7_500
  const MAX_ELEMENTS := 2_048

  datatype Platform = Win32 | LinuxLike | OtherPosix

  /** Whether the process will be a cmd.exe shim: not yet known, no, or yes. */
  datatype Wrapper = Unknown | Direct | Shim

  datatype Verdict =
    | Accepted
    | NulInCommand
    | NulInArgument(index: nat)
    | TooManyElements
    | TooLarge(actual: nat, max: nat)

  // ------------------------------------------------------------------ UTF-8 sizes

  function Utf8Length(c: CodePoint): (n: nat)
    ensures 1 <= n <= 4
  {
    if c <= 0x7F then 1 else if c <= 0x7FF then 2 else if c <= 0xFFFF then 3 else 4
  }

  function Bytes(t: Text): nat {
    if t == [] then 0 else Utf8Length(t[0]) + Bytes(t[1..])
  }

  lemma {:induction false} BytesConcat(a: Text, b: Text)
    ensures Bytes(a + b) == Bytes(a) + Bytes(b)
  {
    if a == [] {
      assert a + b == b;
    } else {
      assert (a + b)[1..] == a[1..] + b;
      BytesConcat(a[1..], b);
    }
  }

  /** Plain ASCII text, for the fixed tokens of a command line. */
  function Ascii(s: string): (t: Text)
    ensures |t| == |s|
  {
    seq(|s|, i requires 0 <= i < |s| => AsciiCode(s[i]))
  }

  function AsciiCode(c: char): CodePoint { if 0 < c as int < 128 then c as int else 63 }

  lemma {:induction false} SevenBit(t: Text)
    requires forall i :: 0 <= i < |t| ==> 0 < t[i] <= 0x7F
    ensures Bytes(t) == |t| && 0 !in t
  {
    if t != [] { SevenBit(t[1..]); }
  }

  lemma AsciiBytes(s: string)
    ensures Bytes(Ascii(s)) == |s| && 0 !in Ascii(s)
  {
    SevenBit(Ascii(s));
  }

  /** The fixed tokens of a shim launch and of a PowerShell launch. */
  lemma ShimTokens()
    ensures Bytes(Ascii("cmd.exe")) == 7 && Bytes(Ascii("/d")) == Bytes(Ascii("/s")) == Bytes(Ascii("/c")) == 2
    ensures 0 !in Ascii("cmd.exe") && 0 !in Ascii("/d") && 0 !in Ascii("/s") && 0 !in Ascii("/c")
  {
    AsciiBytes("cmd.exe");
    AsciiBytes("/d");
    AsciiBytes("/s");
    AsciiBytes("/c");
  }

  // ------------------------------------------------------------------ the three measures

  function ArgvBytes(command: Text, args: seq<Text>): nat {
    Bytes(command) + 1 + TokenBytes(args)
  }

  function TokenBytes(args: seq<Text>): nat {
    if args == [] then 0 else Bytes(args[0]) + 1 + TokenBytes(args[1..])
  }

  function UpperBound(command: Text, args: seq<Text>): nat {
    Bytes(command) * 2 + 3 + TokenUpperBound(args)
  }

  function TokenUpperBound(args: seq<Text>): nat {
    if args == [] then 0 else Bytes(args[0]) * 2 + 3 + TokenUpperBound(args[1..])
  }

  /** Digits, letters and _ . / : = - */
  predicate IsSafeAscii(c: CodePoint) {
    0x30 <= c <= 0x39 || 0x41 <= c <= 0x5A || 0x61 <= c <= 0x7A || c in {95, 46, 47, 58, 61, 45}
  }

  /** The bound for the rest of one argument when `n` backslashes are pending. */
  function ArgBound(v: Text, n: nat): nat {
    if v == [] then 2 * n
    else if v[0] == BACKSLASH then ArgBound(v[1..], n + 1)
    else if v[0] == QUOTE then 2 * n + 3 + ArgBound(v[1..], 0)
    else n + CharBound(v[0]) + ArgBound(v[1..], 0)
  }

  function CharBound(c: CodePoint): nat {
    (if c <= 0x7F then 1 else Utf8Length(c)) + if c <= 0x7F && !IsSafeAscii(c) then 1 else 0
  }

  function TailBound(args: seq<Text>): nat {
    if args == [] then 0 else 5 + ArgBound(args[0], 0) + TailBound(args[1..])
  }

  function PreflightBound(command: Text, args: seq<Text>): nat {
    1_024 + Bytes(command) * 2 + TailBound(args)
  }

  /** measureWindowsCmdWrapperPreflightUtf8UpperBound. */
  method MeasurePreflight(command: Text, args: seq<Text>) returns (total: nat)
    ensures total == PreflightBound(command, args)
  {
    var wrapperAndResolvedPathHeadroom := 1_024;
    total := wrapperAndResolvedPathHeadroom + Bytes(command) * 2;
    for i := 0 to |args|
      invariant total + TailBound(args[i..]) == PreflightBound(command, args)
    {
      var argument := args[i];
      assert args[i..][0] == argument && args[i..][1..] == args[i + 1..];
      total := total + 5;
      var backslashes := 0;
      for j := 0 to |argument|
        invariant total + ArgBound(argument[j..], backslashes) + TailBound(args[i + 1..])
               == PreflightBound(command, args)
      {
        var character := argument[j];
        assert argument[j..][0] == character && argument[j..][1..] == argument[j + 1..];
        if character == BACKSLASH {
          backslashes := backslashes + 1;
          continue;
        }
        if character == QUOTE {
          total := total + backslashes * 2 + 3;
          backslashes := 0;
          continue;
        }
        total := total + backslashes;
        backslashes := 0;
        total := total + if character <= 0x7F then 1 else Utf8Length(character);
        if character <= 0x7F && !IsSafeAscii(character) {
          total := total + 1;
        }
      }
      total := total + backslashes * 2;
    }
  }

  /** measureCliArgvUtf8Bytes. */
  method MeasureArgv(command: Text, args: seq<Text>) returns (total: nat)
    ensures total == ArgvBytes(command, args)
  {
    total := Bytes(command) + 1;
    for i := 0 to |args|
      invariant total + TokenBytes(args[i..]) == ArgvBytes(command, args)
    {
      assert args[i..][0] == args[i] && args[i..][1..] == args[i + 1..];
      total := total + Bytes(args[i]) + 1;
    }
  }

  /** measureWindowsCliArgvUtf8UpperBound. */
  method MeasureUpperBound(command: Text, args: seq<Text>) returns (total: nat)
    ensures total == UpperBound(command, args)
  {
    total := Bytes(command) * 2 + 3;
    for i := 0 to |args|
      invariant total + TokenUpperBound(args[i..]) == UpperBound(command, args)
    {
      assert args[i..][0] == args[i] && args[i..][1..] == args[i + 1..];
      total := total + Bytes(args[i]) * 2 + 3;
    }
  }

  // ------------------------------------------------------------------ admission

  function MaxBytes(platform: Platform, shim: bool): nat {
    match platform
    case Win32 => if shim then MAX_ARGV_WINDOWS_CMD else MAX_ARGV_WINDOWS
    case LinuxLike => MAX_ARGV_LINUX
    case OtherPosix => MAX_ARGV_POSIX
  }

  function Measure(command: Text, args: seq<Text>, platform: Platform, wrapper: Wrapper): nat {
    if platform == Win32 && wrapper == Unknown then PreflightBound(command, args)
    else if platform == Win32 && wrapper == Direct then UpperBound(command, args)
    else ArgvBytes(command, args)
  }

  function FirstNul(args: seq<Text>, i: nat): (k: nat)
    requires i <= |args|
    ensures i <= k <= |args| && (k < |args| ==> 0 in args[k]) && forall j :: i <= j < k ==> 0 !in args[j]
    decreases |args| - i
  {
    if i == |args| || 0 in args[i] then i else FirstNul(args, i + 1)
  }

  function Admission(command: Text, args: seq<Text>, platform: Platform, wrapper: Wrapper): Verdict {
    if 0 in command then NulInCommand
    else if FirstNul(args, 0) < |args| then NulInArgument(FirstNul(args, 0))
    else if |args| > MAX_ELEMENTS then TooManyElements
    else
      var max := MaxBytes(platform, wrapper == Shim || (platform == Win32 && wrapper == Unknown));
      var actual := Measure(command, args, platform, wrapper);
      if actual <= max then Accepted else TooLarge(actual, max)
  }

  /** assertCliArgvUtf8Size, with the exception it throws as its result. */
  method AssertArgvSize(command: Text, args: seq<Text>, platform: Platform, wrapper: Wrapper) returns (v: Verdict)
    ensures v == Admission(command, args, platform, wrapper)
  {
    if 0 in command { return NulInCommand; }
    for i := 0 to |args|
      invariant FirstNul(args, 0) == FirstNul(args, i)
    {
      if 0 in args[i] { return NulInArgument(i); }
    }
    if |args| > MAX_ELEMENTS { return TooManyElements; }
    var unresolvedWindowsSurface := platform == Win32 && wrapper == Unknown;
    var max := MaxBytes(platform, wrapper == Shim || unresolvedWindowsSurface);
    var actual: nat;
    if unresolvedWindowsSurface {
      actual := MeasurePreflight(command, args);
    } else if platform == Win32 && wrapper != Shim {
      actual := MeasureUpperBound(command, args);
    } else {
      actual := MeasureArgv(command, args);
    }
    v := if actual <= max then Accepted else TooLarge(actual, max);
  }

  // ------------------------------------------------------------------ command resolution

  /** What looking the command up on a Windows PATH found. */
  datatype Resolution =
    | NotFound
    | Native(path: Text)
    | PowerShell(path: Text)
    | Batch(path: Text)  // the normalised path of a .cmd or .bat file

  datatype SpawnCommand = SpawnCommand(command: Text, args: seq<Text>, verbatim: bool)

  /** resolveCommandForSpawn on Windows. */
  function Resolve(command: Text, args: seq<Text>, r: Resolution): SpawnCommand {
    match r
    case NotFound => SpawnCommand(command, args, false)
    case Native(path) => SpawnCommand(path, args, false)
    case PowerShell(path) =>
      SpawnCommand(Ascii("powershell.exe"),
        [Ascii("-NoProfile"), Ascii("-ExecutionPolicy"), Ascii("Bypass"), Ascii("-File"), path] + args, false)
    case Batch(path) =>
      SpawnCommand(Ascii("cmd.exe"), [Ascii("/d"), Ascii("/s"), Ascii("/c"), Composite(path, args)], true)
  }

  /** The first check of spawnCliProcess, before the command is looked up. */
  function Preflight(command: Text, args: seq<Text>): Verdict {
    Admission(command, args, Win32, Unknown)
  }

  /** The check of spawnCliProcess on the resolved vector. */
  function FinalCheck(command: Text, args: seq<Text>, r: Resolution): Verdict {
    var c := Resolve(command, args, r);
    Admission(c.command, c.args, Win32, if c.verbatim then Shim else Direct)
  }

  // ------------------------------------------------------------------ the bound against the escaped text

  /** What the bound counts too much for one argument: a caret for every ASCII character that is
      neither known to be safe nor a metacharacter. */
  function Overcount(v: Text): nat {
    if v == [] then 0
    else (if v[0] <= 0x7F && !IsSafeAscii(v[0]) && !IsMeta(v[0]) && v[0] != BACKSLASH then 1 else 0) + Overcount(v[1..])
  }

  function TailOvercount(args: seq<Text>): nat {
    if args == [] then 0 else Overcount(args[0]) + TailOvercount(args[1..])
  }

  lemma {:induction false} EscapeConcat(a: Text, b: Text)
    ensures Escape(a + b) == Escape(a) + Escape(b)
  {
    if a == [] {
      assert a + b == b;
    } else {
      assert (a + b)[1..] == a[1..] + b;
      EscapeConcat(a[1..], b);
    }
  }

  lemma EscapedBytesConcat(a: Text, b: Text)
    ensures Bytes(Escape(a + b)) == Bytes(Escape(a)) + Bytes(Escape(b))
  {
    EscapeConcat(a, b);
    BytesConcat(Escape(a), Escape(b));
  }

  lemma {:induction false} EscapedBackslashes(n: nat)
    ensures Bytes(Escape(Repeat(n))) == n
  {
    if n > 0 {
      EscapedBackslashes(n - 1);
      EscapedBytesConcat([BACKSLASH], Repeat(n - 1));
      EscapedChar(BACKSLASH);
    }
  }

  lemma EscapedChar(c: CodePoint)
    ensures Bytes(Escape([c])) == Utf8Length(c) + if IsMeta(c) then 1 else 0
  {
    assert Escape([c]) == EscapeChar(c);
    if IsMeta(c) { BytesConcat([CARET], [c]); }
  }

  /** The escaped encoding of an argument plus the overcount is the bound, to the byte. */
  lemma {:induction false} ArgBoundExact(v: Text, n: nat)
    ensures Bytes(Escape(Encode(v, n))) + Overcount(v) == ArgBound(v, n)
    decreases |v|
  {
    if v == [] {
      EscapedBackslashes(2 * n);
    } else if v[0] == BACKSLASH {
      ArgBoundExact(v[1..], n + 1);
    } else {
      var m := if v[0] == QUOTE then 2 * n + 1 else n;
      ArgBoundExact(v[1..], 0);
      EscapedBytesConcat(Repeat(m) + [v[0]], Encode(v[1..], 0));
      EscapedBytesConcat(Repeat(m), [v[0]]);
      EscapedBackslashes(m);
      EscapedChar(v[0]);
    }
  }

  lemma QuotedBytes(v: Text)
    ensures Bytes(Escape(Quote(v))) + Overcount(v) == 4 + ArgBound(v, 0)
  {
    ArgBoundExact(v, 0);
    EscapedBytesConcat([QUOTE] + Encode(v, 0), [QUOTE]);
    EscapedBytesConcat([QUOTE], Encode(v, 0));
    EscapedChar(QUOTE);
  }

  lemma {:induction false} TailBytes(args: seq<Text>)
    ensures Bytes(EscapedTail(args)) + TailOvercount(args) == TailBound(args)
  {
    if args != [] {
      TailBytes(args[1..]);
      QuotedBytes(args[0]);
      BytesConcat([SPACE] + Escape(Quote(args[0])), EscapedTail(args[1..]));
      BytesConcat([SPACE], Escape(Quote(args[0])));
    }
  }

  lemma CompositeBytes(path: Text, args: seq<Text>)
    ensures Bytes(Composite(path, args)) + TailOvercount(args) == 2 + Bytes(Escape(path)) + TailBound(args)
  {
    var inner := Escape(path) + EscapedTail(args);
    BytesConcat([QUOTE] + inner, [QUOTE]);
    BytesConcat([QUOTE], inner);
    BytesConcat(Escape(path), EscapedTail(args));
    TailBytes(args);
  }

  lemma FourTokens(a: Text, b: Text, c: Text, d: Text)
    ensures TokenBytes([a, b, c, d]) == Bytes(a) + Bytes(b) + Bytes(c) + Bytes(d) + 4
  {
    assert [a, b, c, d][1..] == [b, c, d] && [b, c, d][1..] == [c, d] && [c, d][1..] == [d];
    assert TokenBytes([d]) == Bytes(d) + 1;
    assert TokenBytes([c, d]) == Bytes(c) + 1 + TokenBytes([d]);
  }

  /** The exact size of the resolved shim vector, in terms of the bound computed before resolution. */
  lemma ShimVectorBytes(command: Text, args: seq<Text>, path: Text)
    ensures var c := Resolve(command, args, Batch(path));
      ArgvBytes(c.command, c.args) + TailOvercount(args) + 1_004 + 2 * Bytes(command)
        == PreflightBound(command, args) + Bytes(Escape(path))
  {
    ShimTokens();
    FourTokens(Ascii("/d"), Ascii("/s"), Ascii("/c"), Composite(path, args));
    CompositeBytes(path, args);
  }

  // ------------------------------------------------------------------ no NUL appears

  lemma {:induction false} EscapeNoNul(v: Text)
    ensures 0 in Escape(v) <==> 0 in v
  {
    if v != [] { EscapeNoNul(v[1..]); }
  }

  lemma {:induction false} EncodeNoNul(v: Text, n: nat)
    requires 0 !in v
    ensures 0 !in Encode(v, n)
    decreases |v|
  {
    RepeatNoNul(2 * n);
    RepeatNoNul(2 * n + 1);
    RepeatNoNul(n);
    if v != [] {
      assert 0 !in v[1..];
      EncodeNoNul(v[1..], if v[0] == BACKSLASH then n + 1 else 0);
    }
  }

  lemma {:induction false} RepeatNoNul(n: nat)
    ensures 0 !in Repeat(n)
  {
    if n > 0 { RepeatNoNul(n - 1); }
  }

  lemma {:induction false} TailNoNul(args: seq<Text>)
    requires forall i :: 0 <= i < |args| ==> 0 !in args[i]
    ensures 0 !in EscapedTail(args)
  {
    if args != [] {
      EncodeNoNul(args[0], 0);
      EscapeNoNul(Quote(args[0]));
      TailNoNul(args[1..]);
    }
  }

  lemma FirstNulNone(args: seq<Text>)
    requires forall i :: 0 <= i < |args| ==> 0 !in args[i]
    ensures FirstNul(args, 0) == |args|
  {
  }

  lemma ShimVectorNoNul(command: Text, args: seq<Text>, path: Text)
    requires 0 !in path && forall i :: 0 <= i < |args| ==> 0 !in args[i]
    ensures var c := Resolve(command, args, Batch(path)); 0 !in c.command && FirstNul(c.args, 0) == |c.args| == 4
  {
    var c := Resolve(command, args, Batch(path));
    ShimTokens();
    EscapeNoNul(path);
    TailNoNul(args);
    assert 0 !in Composite(path, args);
    FirstNulNone(c.args);
  }

  // ------------------------------------------------------------------ main results

  /** An argument vector that passed the preflight passes the final check as a shim exactly when the
      escaped path exceeds the headroom by no more than the slack and the overcount. */
  lemma ShimAcceptedIff(command: Text, args: seq<Text>, path: Text)
    requires Preflight(command, args).Accepted? && 0 !in path
    ensures FinalCheck(command, args, Batch(path)).Accepted? <==>
      PreflightBound(command, args) + Bytes(Escape(path)) <= 7_500 + 1_004 + 2 * Bytes(command) + TailOvercount(args)
  {
    ShimVectorNoNul(command, args, path);
    ShimVectorBytes(command, args, path);
  }

  /** Two-phase admission is sound: with room for the resolved path, whatever the preflight lets
      through fits the command line built after resolution. */
  lemma TwoPhaseSound(command: Text, args: seq<Text>, path: Text)
    requires Preflight(command, args).Accepted? && 0 !in path
    requires Bytes(Escape(path)) <= 1_004 + 2 * Bytes(command)
    ensures FinalCheck(command, args, Batch(path)).Accepted?
  {
    ShimAcceptedIff(command, args, path);
  }

  /** Whether every vector admitted for `command` still fits once it resolved to the shim `path`. */
  predicate PathFits(command: Text, path: Text) {
    var b, e := Bytes(command), Bytes(Escape(path));
    || e <= 1_004 + 2 * b
    || 1_024 + 2 * b > 7_500                  // the preflight admits nothing
    || (1_024 + 2 * b > 7_495 && e <= 7_480)  // it admits the empty vector only
  }

  function Letters(n: nat): Text { if n == 0 then [] else [97] + Letters(n - 1) }

  lemma {:induction false} LettersBound(n: nat)
    ensures ArgBound(Letters(n), 0) == n && Overcount(Letters(n)) == 0 && 0 !in Letters(n)
  {
    if n > 0 { LettersBound(n - 1); }
  }

  /** A vector that the preflight admits and the final check rejects, when the path does not fit. */
  lemma Misfit(command: Text, path: Text) returns (args: seq<Text>)
    requires 0 !in command && 0 !in path && !PathFits(command, path)
    ensures Preflight(command, args).Accepted? && !FinalCheck(command, args, Batch(path)).Accepted?
  {
    var b := Bytes(command);
    if 1_024 + 2 * b > 7_495 {
      args := [];
    } else {
      var n := 7_495 - 1_024 - 2 * b;
      LettersBound(n);
      args := [Letters(n)];
      assert args[1..] == [] && TailBound(args) == 5 + n && TailOvercount(args) == 0;
      FirstNulNone(args);
    }
    ShimAcceptedIff(command, args, path);
  }

  /** The exact condition on the resolved path for the two phases to agree on every vector. */
  lemma TwoPhaseSoundIff(command: Text, path: Text)
    requires 0 !in command && 0 !in path
    ensures (forall args | Preflight(command, args).Accepted? :: FinalCheck(command, args, Batch(path)).Accepted?)
       <==> PathFits(command, path)
  {
    if PathFits(command, path) {
      forall args | Preflight(command, args).Accepted?
        ensures FinalCheck(command, args, Batch(path)).Accepted?
      {
        ShimAcceptedIff(command, args, path);
        if args != [] { assert TailBound(args) >= 5; }
      }
    } else {
      var args := Misfit(command, path);
    }
  }

  /** What the other launch surfaces measure is within twice the preflight bound of the arguments. */
  lemma {:induction false} TokensWithinBound(args: seq<Text>)
    ensures TokenUpperBound(args) <= 2 * TailBound(args) && 5 * |args| <= TailBound(args)
  {
    if args != [] {
      TokensWithinBound(args[1..]);
      BytesWithinBound(args[0], 0);
    }
  }

  lemma {:induction false} BytesWithinBound(v: Text, n: nat)
    ensures Bytes(v) + n <= ArgBound(v, n)
    decreases |v|
  {
    if v != [] { BytesWithinBound(v[1..], if v[0] == BACKSLASH then n + 1 else 0); }
  }

  /** A native executable with a path of up to 8,522 bytes never fails the final check after the
      preflight passed. */
  lemma NativeFits(command: Text, args: seq<Text>, path: Text)
    requires Preflight(command, args).Accepted? && 0 !in path && Bytes(path) <= 8_522
    ensures FinalCheck(command, args, Native(path)).Accepted?
  {
    TokensWithinBound(args);
    assert FirstNul(args, 0) == |args|;
  }

  // ------------------------------------------------------------------ what the measures mean

  /** The strings handed to exec: each element with its terminator. */
  function ExecStrings(command: Text, args: seq<Text>): Text
    decreases |args|
  {
    command + [0] + if args == [] then [] else ExecStrings(args[0], args[1..])
  }

  /** The exact measure is the size of those strings. */
  lemma {:induction false} ArgvBytesExact(command: Text, args: seq<Text>)
    ensures ArgvBytes(command, args) == Bytes(ExecStrings(command, args))
    decreases |args|
  {
    var rest := if args == [] then [] else ExecStrings(args[0], args[1..]);
    BytesConcat(command, [0]);
    BytesConcat(command + [0], rest);
    assert Bytes([0]) == 1 by { assert [0][1..] == []; }
    if args != [] { ArgvBytesExact(args[0], args[1..]); }
  }

  lemma RepeatBytes(n: nat)
    ensures Bytes(Repeat(n)) == n
  {
    if n > 0 { RepeatBytes(n - 1); }
  }

  lemma {:induction false} EncodeBytes(v: Text, n: nat)
    ensures Bytes(Encode(v, n)) <= 2 * (Bytes(v) + n)
    decreases |v|
  {
    if v == [] {
      RepeatBytes(2 * n);
    } else if v[0] == BACKSLASH {
      EncodeBytes(v[1..], n + 1);
    } else {
      var m := if v[0] == QUOTE then 2 * n + 1 else n;
      EncodeBytes(v[1..], 0);
      RepeatBytes(m);
      BytesConcat(Repeat(m), [v[0]]);
      BytesConcat(Repeat(m) + [v[0]], Encode(v[1..], 0));
      assert [v[0]][1..] == [];
    }
  }

  /** The Windows bound covers every element quoted by the backslash rules, with a separator. */
  lemma QuotedWithinBound(v: Text)
    ensures Bytes(Quote(v)) + 1 <= 2 * Bytes(v) + 3
  {
    EncodeBytes(v, 0);
    BytesConcat([QUOTE], Encode(v, 0));
    BytesConcat([QUOTE] + Encode(v, 0), [QUOTE]);
    assert [QUOTE][1..] == [];
  }

  function QuotedLine(command: Text, args: seq<Text>): Text
    decreases |args|
  {
    Quote(command) + [SPACE] + if args == [] then [] else QuotedLine(args[0], args[1..])
  }

  lemma {:induction false} UpperBoundCovers(command: Text, args: seq<Text>)
    ensures Bytes(QuotedLine(command, args)) <= UpperBound(command, args)
    decreases |args|
  {
    var rest := if args == [] then [] else QuotedLine(args[0], args[1..]);
    QuotedWithinBound(command);
    BytesConcat(Quote(command), [SPACE]);
    BytesConcat(Quote(command) + [SPACE], rest);
    assert [SPACE][1..] == [];
    if args != [] { UpperBoundCovers(args[0], args[1..]); }
  }

  /** It is reached by text of nothing but quotes. */
  function Quotes(n: nat): Text { if n == 0 then [] else [QUOTE] + Quotes(n - 1) }

  lemma {:induction false} UpperBoundIsTight(n: nat)
    ensures Bytes(Quotes(n)) == n && Bytes(Encode(Quotes(n), 0)) == 2 * n
    ensures Bytes(QuotedLine(Quotes(n), [])) == UpperBound(Quotes(n), [])
  {
    if n > 0 {
      UpperBoundIsTight(n - 1);
      assert Quotes(n)[1..] == Quotes(n - 1);
      RepeatBytes(1);
      BytesConcat(Repeat(1), [QUOTE]);
      BytesConcat(Repeat(1) + [QUOTE], Encode(Quotes(n - 1), 0));
      assert [QUOTE][1..] == [];
    }
    var v := Quotes(n);
    BytesConcat([QUOTE], Encode(v, 0));
    BytesConcat([QUOTE] + Encode(v, 0), [QUOTE]);
    BytesConcat(Quote(v), [SPACE]);
    assert [SPACE][1..] == [] && [QUOTE][1..] == [];
    assert QuotedLine(v, []) == Quote(v) + [SPACE];
  }

  /** A vector is accepted iff it holds no NUL, at most 2,048 arguments, and what is measured of it on
      that platform is within that platform's budget. */
  lemma AcceptedIff(command: Text, args: seq<Text>, platform: Platform, wrapper: Wrapper)
    ensures Admission(command, args, platform, wrapper).Accepted? <==>
      && 0 !in command && (forall i | 0 <= i < |args| :: 0 !in args[i]) && |args| <= 2_048
      && match platform
         case LinuxLike => Bytes(ExecStrings(command, args)) <= 1_048_576
         case OtherPosix => Bytes(ExecStrings(command, args)) <= 131_072
         case Win32 =>
           match wrapper
           case Shim => Bytes(ExecStrings(command, args)) <= 7_500
           case Unknown => PreflightBound(command, args) <= 7_500
           case Direct => UpperBound(command, args) <= 30_000
  {
    ArgvBytesExact(command, args);
    var k := FirstNul(args, 0);
    if forall i | 0 <= i < |args| :: 0 !in args[i] { FirstNulNone(args); }
  }

  /** How many code points n bytes of UTF-8 can tell apart: the payload of the first byte and six bits of
      each further one. */
  function Capacity(n: nat): nat
    requires 1 <= n <= 4
  {
    match n case 1 => 128 case 2 => 32 * 64 case 3 => 16 * 64 * 64 case 4 => 8 * 64 * 64 * 64
  }

  /** A code point takes the fewest bytes that can hold it (section 3 of RFC 3629). */
  lemma Utf8IsShortest(c: CodePoint)
    ensures var n := Utf8Length(c); c < Capacity(n) && (n > 1 ==> c >= Capacity(n - 1))
  {
  }

  /** Letters, digits and _ . / : = - are counted once each, every other ASCII character but the quote and
      the backslash twice. */
  lemma CountedOnce(c: CodePoint)
    requires c <= 0x7F
    ensures CharBound(c) == 1 <==>
      c in {45, 46, 47, 58, 61, 95} || 48 <= c < 58 || 65 <= c < 91 || 97 <= c < 123
    ensures CharBound(c) == 1 || CharBound(c) == 2
  {
  }

  /** A command that was not found, and a PowerShell script, are checked as ordinary Windows vectors. */
  lemma OtherSurfaces(command: Text, args: seq<Text>, path: Text)
    requires Preflight(command, args).Accepted? && 0 !in path && |args| <= 2_000
    ensures FinalCheck(command, args, NotFound).Accepted? <==> UpperBound(command, args) <= 30_000
    ensures FinalCheck(command, args, PowerShell(path)).Accepted? ==> UpperBound(path, args) <= 30_000
    ensures Resolve(command, args, PowerShell(path)).args[4..] == [path] + args
  {
    AcceptedIff(command, args, Win32, Unknown);
    AcceptedIff(command, args, Win32, Direct);
    var c := Resolve(command, args, PowerShell(path));
    AcceptedIff(c.command, c.args, Win32, Direct);
    assert c.args[4..] == [path] + args;
    var four := c.args[..4];
    assert c.args == four + ([path] + args);
    TokenConcat(four, [path] + args);
    assert ([path] + args)[1..] == args;
  }

  lemma {:induction false} TokenConcat(a: seq<Text>, b: seq<Text>)
    ensures TokenUpperBound(a + b) == TokenUpperBound(a) + TokenUpperBound(b)
  {
    if a == [] {
      assert a + b == b;
    } else {
      assert (a + b)[1..] == a[1..] + b;
      TokenConcat(a[1..], b);
    }
  }

  /** The bound is reached for every element of a vector. */
  lemma UpperBoundIsTightThroughout(n: nat, m: nat)
    ensures Bytes(QuotedLine(Quotes(n), [Quotes(m)])) == UpperBound(Quotes(n), [Quotes(m)])
  {
    UpperBoundIsTight(n);
    UpperBoundIsTight(m);
    var first, rest := Quote(Quotes(n)) + [SPACE], QuotedLine(Quotes(m), []);
    assert [Quotes(m)][1..] == [];
    assert QuotedLine(Quotes(n), [Quotes(m)]) == first + rest;
    assert QuotedLine(Quotes(n), []) == first + [];
    assert first + [] == first;
    BytesConcat(first, rest);
  }
}
