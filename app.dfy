/**
 * The viewer's control logic (main.cc): the command-line parser, the
 * per-frame translation of keyboard and mouse state into camera calls, and
 * the window-resize clamp.
 *
 * The program's globals are the fields of one `Viewer` object. The command
 * line, the DirectInput keyboard map and mouse state, the frame time, and the
 * cosine and sine of the orbit step are parameters.
 */
module App {
  import opened Vectors
  import opened WormholeParameters
  import opened Cameras
  import opened Wrappers

  // ---------------------------------------------------------------------
  // wcstol(s, nullptr, 10) and the conversion of its long to uint32_t
  // ---------------------------------------------------------------------

  /** The range of a 32-bit long. */
  const LongMin: int := -0x8000_0000
  const LongMax: int := 0x7FFF_FFFF

  predicate IsSpace(c: char) {
    c == ' ' || 9 <= c as int <= 13
  }

  predicate IsDigit(c: char) {
    '0' <= c <= '9'
  }

  function DigitValue(c: char): (d: nat)
    requires IsDigit(c)
    ensures d < 10
  {
    c as int - '0' as int
  }

  function SkipSpaces(s: string): string
  {
    if |s| > 0 && IsSpace(s[0]) then SkipSpaces(s[1..]) else s
  }

  /** Length of the run of decimal digits at the front of s. */
  function LeadingDigits(s: string): (n: nat)
    ensures n <= |s|
  {
    if |s| > 0 && IsDigit(s[0]) then 1 + LeadingDigits(s[1..]) else 0
  }

  /** The run is all digits and stops at the first non-digit. */
  lemma {:induction false} LeadingDigitsRun(s: string)
    ensures forall k :: 0 <= k < LeadingDigits(s) ==> IsDigit(s[k])
    ensures LeadingDigits(s) < |s| ==> !IsDigit(s[LeadingDigits(s)])
  {
    if |s| > 0 && IsDigit(s[0]) {
      LeadingDigitsRun(s[1..]);
      assert forall k :: 1 <= k < LeadingDigits(s) ==> s[k] == s[1..][k - 1];
    }
  }

  /** The value of a string of decimal digits, most significant first. */
  function DigitsValue(d: string): nat
    requires forall k :: 0 <= k < |d| ==> IsDigit(d[k])
  {
    if |d| == 0 then 0 else DigitsValue(d[..|d| - 1]) * 10 + DigitValue(d[|d| - 1])
  }

  /** The value of the run of digits at the front of u. */
  function DigitRunValue(u: string): nat {
    LeadingDigitsRun(u);
    DigitsValue(u[..LeadingDigits(u)])
  }

  /** A magnitude read with its sign, saturated to the range of a long. */
  function Saturate(negative: bool, m: nat): (v: int)
    ensures LongMin <= v <= LongMax
    ensures negative && m <= -LongMin ==> v + m == 0
    ensures !negative && m <= LongMax ==> v == m
    ensures negative && m > -LongMin ==> v == LongMin
    ensures !negative && m > LongMax ==> v == LongMax
  {
    if negative then (if m > -LongMin then LongMin else 0 - m)
    else (if m > LongMax then LongMax else m)
  }

  /**
   * wcstol in base 10: leading white space, an optional sign, then the longest
   * run of digits; no digits give 0, and values outside a 32-bit long
   * saturate at its bounds.
   */
  function Wcstol(s: string): (v: int)
    ensures LongMin <= v <= LongMax
  {
    var t := SkipSpaces(s);
    if |t| > 0 && t[0] == '-' then Saturate(true, DigitRunValue(t[1..]))
    else if |t| > 0 && t[0] == '+' then Saturate(false, DigitRunValue(t[1..]))
    else Saturate(false, DigitRunValue(t))
  }

  /** Assigning a long to a uint32_t keeps it modulo 2^32. */
  function ToUint32(v: int): (u: nat)
    ensures u < 0x1_0000_0000
    ensures 0 <= v < 0x1_0000_0000 ==> u == v
    ensures -0x1_0000_0000 <= v < 0 ==> u == v + 0x1_0000_0000
  {
    v % 0x1_0000_0000
  }

  function DigitChar(d: nat): (c: char)
    requires d < 10
    ensures IsDigit(c) && DigitValue(c) == d
  {
    ('0' as int + d) as char
  }

  /** The decimal spelling of n, without sign or leading zeros. */
  function DecimalString(n: nat): string
  {
    if n < 10 then [DigitChar(n)] else DecimalString(n / 10) + [DigitChar(n % 10)]
  }

  /** The decimal spelling is a non-empty run of digits whose value is n. */
  lemma {:induction false} DecimalStringDigits(n: nat)
    ensures |DecimalString(n)| > 0
    ensures forall k :: 0 <= k < |DecimalString(n)| ==> IsDigit(DecimalString(n)[k])
    ensures DigitsValue(DecimalString(n)) == n
  {
    if n >= 10 {
      DecimalStringDigits(n / 10);
      var s := DecimalString(n);
      assert s[..|s| - 1] == DecimalString(n / 10);
    }
  }

  /** Over a string of digits the run is the whole string. */
  lemma AllDigitsRun(u: string)
    requires forall k :: 0 <= k < |u| ==> IsDigit(u[k])
    ensures DigitRunValue(u) == DigitsValue(u)
  {
    LeadingDigitsRun(u);
    assert LeadingDigits(u) == |u|;
    assert u[..|u|] == u;
  }

  /** wcstol reads back every decimal spelling within the range of a long. */
  lemma WcstolDecimal(n: nat)
    requires n <= LongMax
    ensures Wcstol(DecimalString(n)) == n
  {
    var s := DecimalString(n);
    DecimalStringDigits(n);
    assert IsDigit(s[0]);
    AllDigitsRun(s);
  }

  /** A decimal spelling beyond the range of a long reads as LONG_MAX. */
  lemma WcstolSaturatesHigh(n: nat)
    requires LongMax < n
    ensures Wcstol(DecimalString(n)) == LongMax
  {
    var s := DecimalString(n);
    DecimalStringDigits(n);
    assert IsDigit(s[0]);
    AllDigitsRun(s);
  }

  /** A negative spelling beyond the range of a long reads as LONG_MIN. */
  lemma WcstolSaturatesLow(n: nat)
    requires -LongMin < n
    ensures Wcstol("-" + DecimalString(n)) == LongMin
  {
    var s := DecimalString(n);
    DecimalStringDigits(n);
    assert ("-" + s)[1..] == s;
    AllDigitsRun(s);
  }

  /** A negative argument reads back negative and wraps around to 2^32 - n as a uint32_t. */
  lemma WcstolNegativeWraps(n: nat)
    requires 0 < n <= -LongMin
    ensures Wcstol("-" + DecimalString(n)) + n == 0
    ensures ToUint32(Wcstol("-" + DecimalString(n))) == 0x1_0000_0000 - n
  {
    var s := DecimalString(n);
    var t := "-" + s;
    DecimalStringDigits(n);
    assert t[1..] == s;
    AllDigitsRun(s);
  }

  /** A string that does not start with a sign, a space or a digit reads as 0. */
  lemma WcstolNoDigits(s: string)
    requires |s| > 0 && !IsSpace(s[0]) && !IsDigit(s[0]) && s[0] != '-' && s[0] != '+'
    ensures Wcstol(s) == 0
  {
  }

  // ---------------------------------------------------------------------
  // ParseCommandLineArguments
  // ---------------------------------------------------------------------

  /** What an argument is to the loop: one of the three flags (either spelling) or anything else. */
  datatype ArgKind = WidthFlag | HeightFlag | WarpFlag | Other

  /** The spellings the loop compares against, each with the flag it names. */
  const FlagSpellings: seq<(string, ArgKind)> :=
    [("-w", WidthFlag), ("--width", WidthFlag), ("-h", HeightFlag), ("--height", HeightFlag),
     ("-warp", WarpFlag), ("--warp", WarpFlag)]

  /** The kind of the first spelling in the table that a equals, Other when none does. */
  function Lookup(a: string, table: seq<(string, ArgKind)>): ArgKind {
    if |table| == 0 then Other
    else if a == table[0].0 then table[0].1
    else Lookup(a, table[1..])
  }

  function Kind(a: string): ArgKind {
    Lookup(a, FlagSpellings)
  }

  /** A table whose spellings all start with a dash never matches a string that does not. */
  lemma {:induction false} LookupNeedsDash(a: string, table: seq<(string, ArgKind)>)
    requires |a| == 0 || a[0] != '-'
    requires forall e :: e in table ==> |e.0| > 0 && e.0[0] == '-'
    ensures Lookup(a, table) == Other
  {
    if |table| > 0 {
      assert table[0] in table;
      LookupNeedsDash(a, table[1..]);
    }
  }

  /** Every flag spelling starts with a dash, so nothing else is a flag. */
  lemma NotFlagWithoutDash(a: string)
    requires |a| == 0 || a[0] != '-'
    ensures Kind(a) == Other
  {
    LookupNeedsDash(a, FlagSpellings);
  }

  predicate IsWidthFlag(a: string) {
    Kind(a) == WidthFlag
  }

  predicate IsHeightFlag(a: string) {
    Kind(a) == HeightFlag
  }

  predicate IsWarpFlag(a: string) {
    Kind(a) == WarpFlag
  }

  predicate IsFlag(a: string) {
    Kind(a) != Other
  }

  /** The three globals the command line can set. */
  datatype Options = Options(clientWidth: nat, clientHeight: nat, useWarp: bool)

  /** The value a width or height argument stores: wcstol's long converted to uint32_t. */
  function ArgValue(a: string): nat {
    ToUint32(Wcstol(a))
  }

  /** v is the value of the argument after some flag of the given kind at index lo or later. */
  predicate ValueOfSomeFlag(argv: seq<string>, lo: nat, kind: ArgKind, v: nat) {
    exists k :: lo <= k < |argv| - 1 && Kind(argv[k]) == kind && v == ArgValue(argv[k + 1])
  }

  /** The three tests of one pass of the loop, in source order. */
  datatype Test = WidthTest | HeightTest | WarpTest

  function Rank(t: Test): nat {
    match t
    case WidthTest => 2
    case HeightTest => 1
    case WarpTest => 0
  }

  /**
   * The loop as a small-step machine: the test `test` is about to run with
   * index i. A width or height flag consumes the next argument as its value
   * and the following tests see that value; a flag in last place makes the
   * source read argv[argc], which is None here. The result is the globals
   * after the loop.
   */
  function Run(argv: seq<string>, i: nat, test: Test, o: Options): (r: Option<Options>)
    requires test != WidthTest ==> i < |argv|
    ensures r.Some? && o.useWarp ==> r.value.useWarp
    ensures r.Some? && r.value.useWarp ==> o.useWarp || exists k :: i <= k < |argv| && IsWarpFlag(argv[k])
    ensures r.None? ==> 0 < |argv| && (IsWidthFlag(argv[|argv| - 1]) || IsHeightFlag(argv[|argv| - 1]))
    ensures r.Some? ==> r.value.clientWidth == o.clientWidth || ValueOfSomeFlag(argv, i, WidthFlag, r.value.clientWidth)
    ensures r.Some? ==> r.value.clientHeight == o.clientHeight || ValueOfSomeFlag(argv, i, HeightFlag, r.value.clientHeight)
    decreases |argv| - i, Rank(test)
  {
    match test
    case WidthTest =>
      if i >= |argv| then Some(o)
      else if !IsWidthFlag(argv[i]) then Run(argv, i, HeightTest, o)
      else if i + 1 < |argv| then Run(argv, i + 1, HeightTest, o.(clientWidth := ArgValue(argv[i + 1])))
      else None
    case HeightTest =>
      if !IsHeightFlag(argv[i]) then Run(argv, i, WarpTest, o)
      else if i + 1 < |argv| then Run(argv, i + 1, WarpTest, o.(clientHeight := ArgValue(argv[i + 1])))
      else None
    case WarpTest =>
      Run(argv, i + 1, WidthTest, if IsWarpFlag(argv[i]) then o.(useWarp := true) else o)
  }

  /**
   * The whole command line, starting from the globals' initial values. It
   * fails only when the last argument is a width or height flag left
   * without its value.
   */
  function Parse(argv: seq<string>, o: Options): (r: Option<Options>)
    ensures r.None? ==> 0 < |argv| && (IsWidthFlag(argv[|argv| - 1]) || IsHeightFlag(argv[|argv| - 1]))
    ensures r.Some? && r.value.useWarp ==> o.useWarp || exists k :: 0 <= k < |argv| && IsWarpFlag(argv[k])
    ensures r.Some? ==> r.value.clientWidth == o.clientWidth || ValueOfSomeFlag(argv, 0, WidthFlag, r.value.clientWidth)
    ensures r.Some? ==> r.value.clientHeight == o.clientHeight || ValueOfSomeFlag(argv, 0, HeightFlag, r.value.clientHeight)
  {
    Run(argv, 0, WidthTest, o)
  }

  /** Without flags the globals keep the values they had. */
  lemma {:induction false} ParseWithoutFlags(argv: seq<string>, i: nat, o: Options)
    requires forall k :: 0 <= k < |argv| ==> !IsFlag(argv[k])
    ensures Run(argv, i, WidthTest, o) == Some(o)
    decreases |argv| - i
  {
    if i < |argv| {
      assert Run(argv, i, HeightTest, o) == Run(argv, i, WarpTest, o);
      ParseWithoutFlags(argv, i + 1, o);
    }
  }

  /**
   * A warp flag anywhere on the command line is seen, even when it was just
   * consumed as the value of -w or -h: the consumed value still goes through
   * the later tests of the same pass.
   */
  lemma {:induction false} ParseSeesWarp(argv: seq<string>, i: nat, test: Test, o: Options, k: nat)
    requires test != WidthTest ==> i < |argv|
    requires i <= k < |argv| && IsWarpFlag(argv[k])
    requires Run(argv, i, test, o).Some?
    ensures Run(argv, i, test, o).value.useWarp
    decreases |argv| - i, Rank(test)
  {
    match test
    case WidthTest =>
      if !IsWidthFlag(argv[i]) {
        ParseSeesWarp(argv, i, HeightTest, o, k);
      } else {
        ParseSeesWarp(argv, i + 1, HeightTest, o.(clientWidth := ArgValue(argv[i + 1])), k);
      }
    case HeightTest =>
      if !IsHeightFlag(argv[i]) {
        ParseSeesWarp(argv, i, WarpTest, o, k);
      } else {
        ParseSeesWarp(argv, i + 1, WarpTest, o.(clientHeight := ArgValue(argv[i + 1])), k);
      }
    case WarpTest =>
      var o' := if IsWarpFlag(argv[i]) then o.(useWarp := true) else o;
      if i != k {
        ParseSeesWarp(argv, i + 1, WidthTest, o', k);
      }
  }

  /** The warp switch ends on exactly when it was on already or some argument is a warp flag. */
  lemma ParseWarpIff(argv: seq<string>, o: Options)
    requires Parse(argv, o).Some?
    ensures Parse(argv, o).value.useWarp <==> o.useWarp || exists k :: 0 <= k < |argv| && IsWarpFlag(argv[k])
  {
    if k :| 0 <= k < |argv| && IsWarpFlag(argv[k]) {
      ParseSeesWarp(argv, 0, WidthTest, o, k);
    }
  }

  /** Either width spelling followed by a number within a long sets the width to it. */
  lemma ParseWidth(program: string, flag: string, n: nat, o: Options)
    requires !IsFlag(program) && IsWidthFlag(flag) && n <= LongMax
    ensures Parse([program, flag, DecimalString(n)], o) == Some(o.(clientWidth := n))
  {
    var argv := [program, flag, DecimalString(n)];
    var value := DecimalString(n);
    WcstolDecimal(n);
    DecimalStringDigits(n);
    NotFlagWithoutDash(value);
    var o1 := o.(clientWidth := n);
    assert Run(argv, 2, HeightTest, o1) == Run(argv, 2, WarpTest, o1) == Run(argv, 3, WidthTest, o1);
    assert Run(argv, 1, WidthTest, o) == Run(argv, 2, HeightTest, o1);
    assert Run(argv, 0, HeightTest, o) == Run(argv, 0, WarpTest, o) == Run(argv, 1, WidthTest, o);
  }

  /** Either height spelling followed by a number within a long sets the height to it. */
  lemma ParseHeight(program: string, flag: string, n: nat, o: Options)
    requires !IsFlag(program) && IsHeightFlag(flag) && n <= LongMax
    ensures Parse([program, flag, DecimalString(n)], o) == Some(o.(clientHeight := n))
  {
    var argv := [program, flag, DecimalString(n)];
    var value := DecimalString(n);
    WcstolDecimal(n);
    DecimalStringDigits(n);
    NotFlagWithoutDash(value);
    var o1 := o.(clientHeight := n);
    assert Run(argv, 2, WarpTest, o1) == Run(argv, 3, WidthTest, o1);
    assert Run(argv, 1, HeightTest, o) == Run(argv, 2, WarpTest, o1);
    assert Run(argv, 1, WidthTest, o) == Run(argv, 1, HeightTest, o);
    assert Run(argv, 0, HeightTest, o) == Run(argv, 0, WarpTest, o) == Run(argv, 1, WidthTest, o);
  }

  /**
   * Arguments appended after a command line that parses are read from where
   * it ended: the loop over a + b first does what it does over a, then goes
   * on over b from those globals.
   */
  lemma {:induction false} RunAppend(a: seq<string>, b: seq<string>, i: nat, test: Test, o: Options)
    requires i <= |a| && (test != WidthTest ==> i < |a|)
    requires Run(a, i, test, o).Some?
    ensures Run(a + b, i, test, o) == Run(a + b, |a|, WidthTest, Run(a, i, test, o).value)
    decreases |a| - i, Rank(test)
  {
    var ab := a + b;
    match test
    case WidthTest =>
      if i < |a| {
        assert ab[i] == a[i];
        if !IsWidthFlag(a[i]) {
          RunAppend(a, b, i, HeightTest, o);
        } else {
          assert ab[i + 1] == a[i + 1];
          RunAppend(a, b, i + 1, HeightTest, o.(clientWidth := ArgValue(a[i + 1])));
        }
      }
    case HeightTest =>
      assert ab[i] == a[i];
      if !IsHeightFlag(a[i]) {
        RunAppend(a, b, i, WarpTest, o);
      } else {
        assert ab[i + 1] == a[i + 1];
        RunAppend(a, b, i + 1, WarpTest, o.(clientHeight := ArgValue(a[i + 1])));
      }
    case WarpTest =>
      assert ab[i] == a[i];
      RunAppend(a, b, i + 1, WidthTest, if IsWarpFlag(a[i]) then o.(useWarp := true) else o);
  }

  /** The last width flag wins: a width flag and a number within a long appended to a command line set the width to that number. */
  lemma ParseAppendWidth(argv: seq<string>, flag: string, n: nat, o: Options)
    requires Parse(argv, o).Some? && IsWidthFlag(flag) && n <= LongMax
    ensures Parse(argv + [flag, DecimalString(n)], o) == Some(Parse(argv, o).value.(clientWidth := n))
  {
    var ab := argv + [flag, DecimalString(n)];
    var p := Parse(argv, o).value;
    RunAppend(argv, [flag, DecimalString(n)], 0, WidthTest, o);
    WcstolDecimal(n);
    DecimalStringDigits(n);
    NotFlagWithoutDash(DecimalString(n));
    var i := |argv|;
    assert ab[i] == flag && ab[i + 1] == DecimalString(n);
    var p1 := p.(clientWidth := n);
    assert Run(ab, i + 1, HeightTest, p1) == Run(ab, i + 1, WarpTest, p1) == Run(ab, i + 2, WidthTest, p1);
  }

  /** The last height flag wins, as for the width. */
  lemma ParseAppendHeight(argv: seq<string>, flag: string, n: nat, o: Options)
    requires Parse(argv, o).Some? && IsHeightFlag(flag) && n <= LongMax
    ensures Parse(argv + [flag, DecimalString(n)], o) == Some(Parse(argv, o).value.(clientHeight := n))
  {
    var ab := argv + [flag, DecimalString(n)];
    var p := Parse(argv, o).value;
    RunAppend(argv, [flag, DecimalString(n)], 0, WidthTest, o);
    WcstolDecimal(n);
    DecimalStringDigits(n);
    NotFlagWithoutDash(DecimalString(n));
    var i := |argv|;
    assert ab[i] == flag && ab[i + 1] == DecimalString(n);
    var p1 := p.(clientHeight := n);
    assert Run(ab, i, WidthTest, p) == Run(ab, i, HeightTest, p);
    assert Run(ab, i + 1, WarpTest, p1) == Run(ab, i + 2, WidthTest, p1);
  }

  /** "-w -h 5": the width takes "-h" as its value (0), and "-h" then still sets the height to 5. */
  lemma ParseValueIsRetested(o: Options)
    ensures Parse(["app", "-w", "-h", "5"], o) == Some(o.(clientWidth := 0, clientHeight := 5))
  {
    var argv := ["app", "-w", "-h", "5"];
    WcstolDecimal(5);
    assert DecimalString(5) == "5";
    WcstolNoDigits("h");
    assert SkipSpaces("-h") == "-h";
    assert "-h"[1..] == "h";
    assert ArgValue("-h") == 0;
    var o1 := o.(clientWidth := 0);
    var o2 := o1.(clientHeight := 5);
    assert Run(argv, 3, WarpTest, o2) == Some(o2);
    assert Run(argv, 2, HeightTest, o1) == Run(argv, 3, WarpTest, o2);
    assert Run(argv, 1, WidthTest, o) == Run(argv, 2, HeightTest, o1);
    assert Run(argv, 0, WidthTest, o) == Run(argv, 1, WidthTest, o);
  }

  /** A value flag in last place makes the loop read past the end of argv. */
  lemma ParseValueFlagLastFails(program: string, flag: string, o: Options)
    requires !IsFlag(program) && (IsWidthFlag(flag) || IsHeightFlag(flag))
    ensures Parse([program, flag], o) == None
  {
    var argv := [program, flag];
    assert Run(argv, 0, HeightTest, o) == Run(argv, 0, WarpTest, o) == Run(argv, 1, WidthTest, o);
    if !IsWidthFlag(flag) {
      assert Run(argv, 1, WidthTest, o) == Run(argv, 1, HeightTest, o);
    }
  }

  // ---------------------------------------------------------------------
  // UpdateCamera
  // ---------------------------------------------------------------------

  /** DirectInput key codes used by the viewer. */
  const KeyLShift: nat := 0x2A
  const KeyA: nat := 0x1E
  const KeyD: nat := 0x20
  const KeyW: nat := 0x11
  const KeyS: nat := 0x1F
  const KeySpace: nat := 0x39
  const KeyC: nat := 0x2E
  const KeyQ: nat := 0x10
  const KeyE: nat := 0x12
  const KeyF1: nat := 0x3B
  const KeyF2: nat := 0x3C

  /** One frame of input: the 256-entry keyboard map, the right mouse button, the mouse motion, the frame time in ms. */
  datatype Input = Input(keys: seq<bv8>, rightMouse: bool, mouseX: int, mouseY: int, frameTime: real)

  predicate Down(keys: seq<bv8>, key: nat)
    requires |keys| == 256 && key < 256
  {
    keys[key] & 0x80 != 0
  }

  /** The distance added to the orbit radius when orbiting starts. */
  const OrbitDelta: real := 0.81

  /** The cap on one frame's mouse turn, 3.1416926 / 36 as the source spells it. */
  const MouseCap: real := 3.1416926 / 36.0

  function Min(a: real, b: real): real {
    if b < a then b else a
  }

  /** A camera call UpdateCamera makes. */
  datatype Command =
    | StrafeBy(dt: real)
    | WalkBy(dt: real)
    | FlyBy(dt: real)
    | RollBy(angle: real)
    | LookAtCentre
    | MoveTo(pos: Vec3)
    | OrbitBy(cos: real, sin: real)
    | YawBy(angle: real)
    | PitchBy(angle: real)

  /** Commands that only turn the camera. */
  predicate Turns(c: Command) {
    c.RollBy? || c.YawBy? || c.PitchBy?
  }

  predicate AllTurns(cmds: seq<Command>) {
    forall m :: 0 <= m < |cmds| ==> Turns(cmds[m])
  }

  /** No call re-aims the camera with LookAt. */
  predicate NoLookAt(cmds: seq<Command>) {
    forall m :: 0 <= m < |cmds| ==> !cmds[m].LookAtCentre?
  }

  lemma NoLookAtConcat(a: seq<Command>, b: seq<Command>)
    requires NoLookAt(a) && NoLookAt(b)
    ensures NoLookAt(a + b)
  {
  }

  /**
   * The camera calls of one frame, grouped as the source issues them, and
   * the new override and orbit flags.
   */
  datatype FrameCalls = FrameCalls(
    moves: seq<Command>, rolls: seq<Command>, look: seq<Command>,
    enter: seq<Command>, orbit: seq<Command>, mouse: seq<Command>,
    positionOverride: bool, orbiting: bool)
  {
    /** All calls in source order. */
    function Commands(): seq<Command> {
      moves + rolls + look + enter + orbit + mouse
    }
  }

  /** The movement delta of a frame: frame time times 1e-4, ten times that with left shift held. */
  function MoveDelta(input: Input): real
    requires |input.keys| == 256
  {
    input.frameTime * 0.0001 * (if Down(input.keys, KeyLShift) then 10.0 else 1.0)
  }

  /** The position that starts an orbit: on the x axis, OrbitDelta beyond radius + length. */
  function OrbitStart(wormhole: Wormhole): Vec3 {
    Vec3(wormhole.radius + wormhole.length + OrbitDelta, 0.0, 0.0)
  }

  /** One orbit step: turn the position about the y axis and drop it to the y = 0 plane. */
  function OrbitPosition(p: Vec3, cosA: real, sinA: real): Vec3 {
    Vec3(p.x * cosA - p.z * sinA, 0.0, p.x * sinA + p.z * cosA)
  }

  /** The angle of one orbit step for a movement delta. */
  function OrbitAngle(delta: real): real {
    delta / 60.0 * 50.0 * 2.0 * 3.1415926535897932
  }

  /** 1 for a key held down, 0 otherwise. */
  function Pressed(keys: seq<bv8>, key: nat): (n: nat)
    requires |keys| == 256 && key < 256
    ensures n == 1 <==> Down(keys, key)
    ensures n <= 1
  {
    if Down(keys, key) then 1 else 0
  }

  /** The movement call a held key stands for: A/D strafe, W/S walk, Space/C fly. */
  predicate MoveIssued(keys: seq<bv8>, delta: real, c: Command)
    requires |keys| == 256
  {
    || (c == StrafeBy(-delta) && Down(keys, KeyA)) || (c == StrafeBy(delta) && Down(keys, KeyD))
    || (c == WalkBy(delta) && Down(keys, KeyW)) || (c == WalkBy(-delta) && Down(keys, KeyS))
    || (c == FlyBy(-delta) && Down(keys, KeySpace)) || (c == FlyBy(delta) && Down(keys, KeyC))
  }

  /**
   * Where a movement call stands in the source's order of keys: A, D, W, S,
   * Space, C. Any other call comes after them.
   */
  function MoveRank(c: Command, delta: real): nat {
    match c
    case StrafeBy(dt) => if dt == -delta then 0 else 1
    case WalkBy(dt) => if dt == delta then 2 else 3
    case FlyBy(dt) => if dt == -delta then 4 else 5
    case _ => 6
  }

  /** The calls of two keys tested one after the other: c1 when k1 is held, then c2 when k2 is held. */
  function KeyPair(keys: seq<bv8>, k1: nat, c1: Command, k2: nat, c2: Command): (cmds: seq<Command>)
    requires |keys| == 256 && k1 < 256 && k2 < 256
    ensures |cmds| == Pressed(keys, k1) + Pressed(keys, k2)
    ensures forall m :: 0 <= m < |cmds| ==> (cmds[m] == c1 && Down(keys, k1)) || (cmds[m] == c2 && Down(keys, k2))
    ensures |cmds| == 2 ==> cmds == [c1, c2]
  {
    (if Down(keys, k1) then [c1] else []) + (if Down(keys, k2) then [c2] else [])
  }

  /** A stretch of calls whose ranks lie in [lo, lo + 1] and never fall. */
  predicate RankedIn(cmds: seq<Command>, delta: real, lo: nat) {
    && (forall m :: 0 <= m < |cmds| ==> lo <= MoveRank(cmds[m], delta) <= lo + 1)
    && (forall a, b :: 0 <= a < b < |cmds| ==> MoveRank(cmds[a], delta) <= MoveRank(cmds[b], delta))
  }

  /** Stretches ranked in consecutive bands concatenate to a sequence whose ranks never fall. */
  lemma RankedConcat(s1: seq<Command>, s2: seq<Command>, s3: seq<Command>, delta: real)
    requires RankedIn(s1, delta, 0) && RankedIn(s2, delta, 2) && RankedIn(s3, delta, 4)
    ensures var cmds := s1 + s2 + s3;
      forall a, b :: 0 <= a < b < |cmds| ==> MoveRank(cmds[a], delta) <= MoveRank(cmds[b], delta)
  {
    var cmds := s1 + s2 + s3;
    forall a, b | 0 <= a < b < |cmds|
      ensures MoveRank(cmds[a], delta) <= MoveRank(cmds[b], delta)
    {
      if b < |s1| {
        assert cmds[a] == s1[a] && cmds[b] == s1[b];
      } else if a >= |s1| + |s2| {
        assert cmds[a] == s3[a - |s1| - |s2|] && cmds[b] == s3[b - |s1| - |s2|];
      } else if a >= |s1| && b < |s1| + |s2| {
        assert cmds[a] == s2[a - |s1|] && cmds[b] == s2[b - |s1|];
      } else {
        var ra := if a < |s1| then MoveRank(s1[a], delta) else MoveRank(s2[a - |s1|], delta);
        var rb := if b < |s1| + |s2| then MoveRank(s2[b - |s1|], delta) else MoveRank(s3[b - |s1| - |s2|], delta);
        assert MoveRank(cmds[a], delta) == ra && MoveRank(cmds[b], delta) == rb;
      }
    }
  }

  /** The calls of every stretch are movement calls of held keys, so are those of the three together. */
  lemma IssuedConcat(s1: seq<Command>, s2: seq<Command>, s3: seq<Command>, keys: seq<bv8>, delta: real)
    requires |keys| == 256
    requires forall m :: 0 <= m < |s1| ==> MoveIssued(keys, delta, s1[m])
    requires forall m :: 0 <= m < |s2| ==> MoveIssued(keys, delta, s2[m])
    requires forall m :: 0 <= m < |s3| ==> MoveIssued(keys, delta, s3[m])
    ensures var cmds := s1 + s2 + s3; forall m :: 0 <= m < |cmds| ==> MoveIssued(keys, delta, cmds[m])
  {
    var cmds := s1 + s2 + s3;
    forall m | 0 <= m < |cmds|
      ensures MoveIssued(keys, delta, cmds[m])
    {
      if m < |s1| {
        assert cmds[m] == s1[m];
      } else if m < |s1| + |s2| {
        assert cmds[m] == s2[m - |s1|];
      } else {
        assert cmds[m] == s3[m - |s1| - |s2|];
      }
    }
  }

  /** A key pair whose calls are issued by their keys and ranked in one band keeps that band, in order. */
  lemma PairFacts(keys: seq<bv8>, delta: real, k1: nat, c1: Command, k2: nat, c2: Command, lo: nat)
    requires |keys| == 256 && k1 < 256 && k2 < 256
    requires MoveRank(c1, delta) == lo && lo <= MoveRank(c2, delta) <= lo + 1
    requires Down(keys, k1) ==> MoveIssued(keys, delta, c1)
    requires Down(keys, k2) ==> MoveIssued(keys, delta, c2)
    ensures RankedIn(KeyPair(keys, k1, c1, k2, c2), delta, lo)
    ensures var cmds := KeyPair(keys, k1, c1, k2, c2);
      forall m :: 0 <= m < |cmds| ==> MoveIssued(keys, delta, cmds[m])
  {
  }

  /** The movement calls of the three key pairs A/D, W/S and Space/C, in that order. */
  function MovePairs(keys: seq<bv8>, delta: real): seq<Command>
    requires |keys| == 256
  {
    KeyPair(keys, KeyA, StrafeBy(-delta), KeyD, StrafeBy(delta))
    + KeyPair(keys, KeyW, WalkBy(delta), KeyS, WalkBy(-delta))
    + KeyPair(keys, KeySpace, FlyBy(-delta), KeyC, FlyBy(delta))
  }

  /** The pairs issue one call per held key, each of a held key, in the source's key order. */
  lemma MovePairsFacts(keys: seq<bv8>, delta: real)
    requires |keys| == 256
    ensures |MovePairs(keys, delta)| == Pressed(keys, KeyA) + Pressed(keys, KeyD) + Pressed(keys, KeyW)
                                        + Pressed(keys, KeyS) + Pressed(keys, KeySpace) + Pressed(keys, KeyC)
    ensures var cmds := MovePairs(keys, delta); forall m :: 0 <= m < |cmds| ==> MoveIssued(keys, delta, cmds[m])
    ensures var cmds := MovePairs(keys, delta);
      forall a, b :: 0 <= a < b < |cmds| ==> MoveRank(cmds[a], delta) <= MoveRank(cmds[b], delta)
  {
    var strafes := KeyPair(keys, KeyA, StrafeBy(-delta), KeyD, StrafeBy(delta));
    var walks := KeyPair(keys, KeyW, WalkBy(delta), KeyS, WalkBy(-delta));
    var flies := KeyPair(keys, KeySpace, FlyBy(-delta), KeyC, FlyBy(delta));
    PairFacts(keys, delta, KeyA, StrafeBy(-delta), KeyD, StrafeBy(delta), 0);
    PairFacts(keys, delta, KeyW, WalkBy(delta), KeyS, WalkBy(-delta), 2);
    PairFacts(keys, delta, KeySpace, FlyBy(-delta), KeyC, FlyBy(delta), 4);
    RankedConcat(strafes, walks, flies, delta);
    IssuedConcat(strafes, walks, flies, keys, delta);
  }

  /**
   * The six movement keys, in source order; none while the position is
   * overridden. Each call is the one of a held key, and there is one call
   * per held key.
   */
  function MoveCommands(keys: seq<bv8>, delta: real, positionOverride: bool): (cmds: seq<Command>)
    requires |keys| == 256
    ensures positionOverride ==> cmds == []
    ensures !positionOverride ==> |cmds| == Pressed(keys, KeyA) + Pressed(keys, KeyD) + Pressed(keys, KeyW)
                                             + Pressed(keys, KeyS) + Pressed(keys, KeySpace) + Pressed(keys, KeyC)
    ensures forall m :: 0 <= m < |cmds| ==> MoveIssued(keys, delta, cmds[m])
    ensures forall a, b :: 0 <= a < b < |cmds| ==> MoveRank(cmds[a], delta) <= MoveRank(cmds[b], delta)
  {
    if positionOverride then []
    else
      MovePairsFacts(keys, delta);
      MovePairs(keys, delta)
  }

  /**
   * The two roll keys, whatever the flags: Q rolls by minus twice the delta,
   * E by twice the delta, and nothing else is issued.
   */
  function RollCommands(keys: seq<bv8>, delta: real): (cmds: seq<Command>)
    requires |keys| == 256
    ensures |cmds| == Pressed(keys, KeyQ) + Pressed(keys, KeyE)
    ensures forall m :: 0 <= m < |cmds| ==>
      (cmds[m] == RollBy(-2.0 * delta) && Down(keys, KeyQ)) || (cmds[m] == RollBy(2.0 * delta) && Down(keys, KeyE))
    ensures Down(keys, KeyQ) ==> RollBy(-2.0 * delta) in cmds
    ensures Down(keys, KeyE) ==> RollBy(2.0 * delta) in cmds
  {
    (if Down(keys, KeyQ) then [RollBy(-delta * 2.0)] else [])
    + (if Down(keys, KeyE) then [RollBy(delta * 2.0)] else [])
  }

  /** The mouse motion scaled by the frame time, as the source scales it before capping. */
  function MouseTurn(motion: int, frameTime: real): real {
    motion as real * (frameTime * 0.0001)
  }

  /**
   * With the right button held, a yaw by the horizontal and a pitch by minus
   * the vertical mouse motion, each scaled by the frame time and capped
   * from above only.
   */
  function MouseCommands(input: Input): (cmds: seq<Command>)
    ensures input.rightMouse <==> |cmds| == 2
    ensures |cmds| == 2 ==> cmds[0] == YawBy(Min(MouseTurn(input.mouseX, input.frameTime), MouseCap))
    ensures |cmds| == 2 ==> cmds[1] == PitchBy(-Min(MouseTurn(input.mouseY, input.frameTime), MouseCap))
    ensures |cmds| == 2 ==> cmds[0].angle <= MouseCap && -MouseCap <= cmds[1].angle
  {
    if input.rightMouse then
      [YawBy(Min(MouseTurn(input.mouseX, input.frameTime), MouseCap)),
       PitchBy(-Min(MouseTurn(input.mouseY, input.frameTime), MouseCap))]
    else []
  }

  /**
   * The cap binds only from above: a turn at or below the cap (any turn to
   * the left or any downward pitch, however large) passes unchanged, and a
   * larger one is cut to the cap.
   */
  lemma MouseCapOnlyFromAbove(input: Input)
    requires input.rightMouse
    ensures var cmds, x, y := MouseCommands(input), MouseTurn(input.mouseX, input.frameTime), MouseTurn(input.mouseY, input.frameTime);
      && (x <= MouseCap ==> cmds[0] == YawBy(x))
      && (MouseCap < x ==> cmds[0] == YawBy(MouseCap))
      && (y <= MouseCap ==> cmds[1] == PitchBy(-y))
      && (MouseCap < y ==> cmds[1] == PitchBy(-MouseCap))
  {
  }

  /**
   * What UpdateCamera does in one frame, given the flags before it: the
   * movement keys only without the position override, the roll keys and the
   * mouse always, F1 looks at the centre, F2 toggles both flags and, when
   * orbiting starts, moves to the orbit start; while orbiting, one orbit step.
   */
  function Dispatch(input: Input, positionOverride: bool, orbiting: bool, wormhole: Wormhole,
                    cos: real -> real, sin: real -> real): (f: FrameCalls)
    requires |input.keys| == 256
    ensures f.positionOverride == (positionOverride != Down(input.keys, KeyF2))
    ensures f.orbiting == (orbiting != Down(input.keys, KeyF2))
  {
    var keys := input.keys;
    var delta := MoveDelta(input);
    var toggled := Down(keys, KeyF2);
    var override' := if toggled then !positionOverride else positionOverride;
    var orbiting' := if toggled then !orbiting else orbiting;
    var angle := OrbitAngle(delta);
    FrameCalls(
      MoveCommands(keys, delta, positionOverride),
      RollCommands(keys, delta),
      if Down(keys, KeyF1) && !positionOverride then [LookAtCentre] else [],
      if toggled && orbiting' then [MoveTo(OrbitStart(wormhole))] else [],
      if orbiting' then [OrbitBy(cos(angle), sin(angle))] else [],
      MouseCommands(input),
      override', orbiting')
  }

  /** With the position override set, no movement key and no F1 reaches the camera. */
  lemma OverrideBlocksMovement(input: Input, orbiting: bool, wormhole: Wormhole, cos: real -> real, sin: real -> real)
    requires |input.keys| == 256
    ensures var f := Dispatch(input, true, orbiting, wormhole, cos, sin);
      f.moves == [] && f.look == []
  {
  }

  /** Without the override each movement key issues its call with the frame's delta, and F1 its LookAt. */
  lemma MovementKeysWithoutOverride(input: Input, orbiting: bool, wormhole: Wormhole, cos: real -> real, sin: real -> real)
    requires |input.keys| == 256
    ensures var f := Dispatch(input, false, orbiting, wormhole, cos, sin);
      && (Down(input.keys, KeyW) ==> WalkBy(MoveDelta(input)) in f.moves)
      && (Down(input.keys, KeyS) ==> WalkBy(-MoveDelta(input)) in f.moves)
      && (Down(input.keys, KeyD) ==> StrafeBy(MoveDelta(input)) in f.moves)
      && (Down(input.keys, KeyA) ==> StrafeBy(-MoveDelta(input)) in f.moves)
      && (Down(input.keys, KeyC) ==> FlyBy(MoveDelta(input)) in f.moves)
      && (Down(input.keys, KeySpace) ==> FlyBy(-MoveDelta(input)) in f.moves)
      && (Down(input.keys, KeyF1) <==> f.look == [LookAtCentre])
  {
  }

  /** Left shift multiplies the movement delta by ten. */
  lemma ShiftMultipliesDelta(input: Input)
    requires |input.keys| == 256
    ensures Down(input.keys, KeyLShift) ==> MoveDelta(input) == 10.0 * (input.frameTime * 0.0001)
    ensures !Down(input.keys, KeyLShift) ==> MoveDelta(input) == input.frameTime * 0.0001
  {
  }

  /** Flags that start equal stay equal. */
  lemma FlagsToggleTogether(input: Input, positionOverride: bool, orbiting: bool, wormhole: Wormhole, cos: real -> real, sin: real -> real)
    requires |input.keys| == 256
    requires positionOverride == orbiting
    ensures var f := Dispatch(input, positionOverride, orbiting, wormhole, cos, sin);
      f.positionOverride == f.orbiting
  {
  }

  /**
   * Orbiting starts on the x axis beyond the throat, and every orbiting
   * frame issues exactly one orbit step, by the angle of the frame's delta.
   */
  lemma OrbitCalls(input: Input, positionOverride: bool, orbiting: bool, wormhole: Wormhole, cos: real -> real, sin: real -> real)
    requires |input.keys| == 256
    ensures var f := Dispatch(input, positionOverride, orbiting, wormhole, cos, sin);
      var angle := OrbitAngle(MoveDelta(input));
      && |f.enter| == (if Down(input.keys, KeyF2) && f.orbiting then 1 else 0)
      && (forall c :: c in f.enter ==> c == MoveTo(OrbitStart(wormhole)) && c.pos.y == 0.0)
      && |f.orbit| == (if f.orbiting then 1 else 0)
      && (forall c :: c in f.orbit ==> c == OrbitBy(cos(angle), sin(angle)))
  {
  }

  /**
   * A frame with no movement, roll, F1 or F2 key and without the right
   * button issues nothing but the orbit step, and that only while orbiting.
   */
  lemma IdleFrame(input: Input, positionOverride: bool, orbiting: bool, wormhole: Wormhole, cos: real -> real, sin: real -> real)
    requires |input.keys| == 256 && !input.rightMouse
    requires !Down(input.keys, KeyA) && !Down(input.keys, KeyD) && !Down(input.keys, KeyW) && !Down(input.keys, KeyS)
    requires !Down(input.keys, KeySpace) && !Down(input.keys, KeyC) && !Down(input.keys, KeyQ) && !Down(input.keys, KeyE)
    requires !Down(input.keys, KeyF1) && !Down(input.keys, KeyF2)
    ensures var angle := OrbitAngle(MoveDelta(input));
      Dispatch(input, positionOverride, orbiting, wormhole, cos, sin).Commands()
        == if orbiting then [OrbitBy(cos(angle), sin(angle))] else []
  {
    var f := Dispatch(input, positionOverride, orbiting, wormhole, cos, sin);
    assert f.moves == [] && f.rolls == [] && f.look == [] && f.enter == [] && f.mouse == [];
  }

  /** Unless F1 is pressed without the override, a frame's calls never re-aim the camera. */
  lemma FrameWithoutLookAt(input: Input, positionOverride: bool, orbiting: bool, wormhole: Wormhole, cos: real -> real, sin: real -> real)
    requires |input.keys| == 256
    requires positionOverride || !Down(input.keys, KeyF1)
    ensures NoLookAt(Dispatch(input, positionOverride, orbiting, wormhole, cos, sin).Commands())
  {
    var f := Dispatch(input, positionOverride, orbiting, wormhole, cos, sin);
    NoLookAtConcat(f.moves, f.rolls);
    NoLookAtConcat(f.moves + f.rolls, f.look);
    NoLookAtConcat(f.moves + f.rolls + f.look, f.enter);
    NoLookAtConcat(f.moves + f.rolls + f.look + f.enter, f.orbit);
    NoLookAtConcat(f.moves + f.rolls + f.look + f.enter + f.orbit, f.mouse);
  }

  /** An orbit step with a true cosine and sine keeps the distance from the y axis. */
  lemma OrbitKeepsDistance(p: Vec3, cosA: real, sinA: real)
    requires cosA * cosA + sinA * sinA == 1.0
    ensures var q := OrbitPosition(p, cosA, sinA); q.y == 0.0 && q.x * q.x + q.z * q.z == p.x * p.x + p.z * p.z
  {
    var q := OrbitPosition(p, cosA, sinA);
    assert q.x * q.x + q.z * q.z == (p.x * p.x + p.z * p.z) * (cosA * cosA + sinA * sinA);
  }

  /** The part of the camera the calls change: its basis and its placement. */
  datatype Pose = Pose(basis: Frame, place: Placement)

  /** Relocation after a move along one basis axis (Walk, Strafe, Fly). */
  function Moved(p: Pose, axis: Vec3, dt: real, speed: real, wormhole: Wormhole, length: Vec3 -> real): Pose {
    Pose(p.basis, Relocate(length, Step(p.place.position, axis, dt, p.place.l, speed), p.place.position, p.place.l, wormhole))
  }

  /** The placement LookAt gives a camera at eye: l keeps its sign and takes the distance from the centre. */
  function Seated(eye: Vec3, l: real, length: Vec3 -> real): Placement {
    Placement(eye, length(eye) * Sign(l) as real, length(eye))
  }

  /**
   * The effect of one camera call, as the methods of Camera specify it: the
   * moves and teleports relocate through CrossSpace, F1 re-aims at the
   * centre from where the camera stands with its own up vector, and the
   * turns rotate the basis.
   */
  function Effect(c: Command, p: Pose, t: Settings, wormhole: Wormhole,
                  length: Vec3 -> real, rotate: (Vec3, real, Vec3) -> Vec3): Pose {
    match c
    case StrafeBy(dt) => Moved(p, p.basis.right, dt, t.speed, wormhole, length)
    case WalkBy(dt) => Moved(p, p.basis.look, dt, t.speed, wormhole, length)
    case FlyBy(dt) => Moved(p, p.basis.up, dt, t.speed, wormhole, length)
    case LookAtCentre => Pose(LookAtFrame(length, p.place.position, Zero, p.basis.up), Seated(p.place.position, p.place.l, length))
    case MoveTo(q) => Pose(p.basis, Relocate(length, q, p.place.position, p.place.l, wormhole))
    case OrbitBy(cosA, sinA) =>
      Pose(p.basis, Relocate(length, OrbitPosition(p.place.position, cosA, sinA), p.place.position, p.place.l, wormhole))
    case RollBy(a) => Pose(Rolled(p.basis, TurnAngle(a, t.rotateRate), rotate), p.place)
    case YawBy(a) => Pose(Yawed(p.basis, TurnAngle(a, t.rotateRate), rotate), p.place)
    case PitchBy(a) => Pose(Pitched(p.basis, TurnAngle(a, t.rotateRate), rotate), p.place)
  }

  /** The pose after the calls, applied in order. */
  function Executed(cmds: seq<Command>, p: Pose, t: Settings, wormhole: Wormhole,
                    length: Vec3 -> real, rotate: (Vec3, real, Vec3) -> Vec3): Pose
    decreases |cmds|
  {
    if cmds == [] then p
    else Effect(cmds[|cmds| - 1], Executed(cmds[..|cmds| - 1], p, t, wormhole, length, rotate), t, wormhole, length, rotate)
  }

  /** Running two batches of calls is running the second from where the first ended. */
  lemma {:induction false} ExecutedConcat(a: seq<Command>, b: seq<Command>, p: Pose, t: Settings, wormhole: Wormhole,
                                          length: Vec3 -> real, rotate: (Vec3, real, Vec3) -> Vec3)
    ensures Executed(a + b, p, t, wormhole, length, rotate)
      == Executed(b, Executed(a, p, t, wormhole, length, rotate), t, wormhole, length, rotate)
    decreases |b|
  {
    if b == [] {
      assert a + b == a;
    } else {
      var b' := b[..|b| - 1];
      assert (a + b)[..|a + b| - 1] == a + b';
      ExecutedConcat(a, b', p, t, wormhole, length, rotate);
    }
  }

  /** Turns alone never move the camera, nor change l or r. */
  lemma {:induction false} ExecutedTurnsKeepPlace(cmds: seq<Command>, p: Pose, t: Settings, wormhole: Wormhole,
                                                  length: Vec3 -> real, rotate: (Vec3, real, Vec3) -> Vec3)
    requires AllTurns(cmds)
    ensures Executed(cmds, p, t, wormhole, length, rotate).place == p.place
    decreases |cmds|
  {
    if cmds != [] {
      var front := cmds[..|cmds| - 1];
      assert Turns(cmds[|cmds| - 1]);
      ExecutedTurnsKeepPlace(front, p, t, wormhole, length, rotate);
    }
  }

  /** Without LookAt, calls keep an orthonormal basis orthonormal when rotations are true rotations. */
  lemma {:induction false} ExecutedKeepsOrthonormal(cmds: seq<Command>, p: Pose, t: Settings, wormhole: Wormhole,
                                                    length: Vec3 -> real, rotate: (Vec3, real, Vec3) -> Vec3)
    requires NoLookAt(cmds) && IsRotation(rotate) && Orthonormal(p.basis)
    ensures Orthonormal(Executed(cmds, p, t, wormhole, length, rotate).basis)
    decreases |cmds|
  {
    if cmds != [] {
      var front := cmds[..|cmds| - 1];
      ExecutedKeepsOrthonormal(front, p, t, wormhole, length, rotate);
      var q := Executed(front, p, t, wormhole, length, rotate);
      var c := cmds[|cmds| - 1];
      assert Executed(cmds, p, t, wormhole, length, rotate) == Effect(c, q, t, wormhole, length, rotate);
      if c.RollBy? {
        RollKeepsOrthonormal(q.basis, TurnAngle(c.angle, t.rotateRate), rotate);
      } else if c.YawBy? {
        YawKeepsOrthonormal(q.basis, TurnAngle(c.angle, t.rotateRate), rotate);
      } else if c.PitchBy? {
        PitchKeepsOrthonormal(q.basis, TurnAngle(c.angle, t.rotateRate), rotate);
      }
    }
  }

  /** Make one camera call: the camera ends in the pose Effect gives; lens, tuning and view stay. */
  method Apply(cam: Camera, c: Command, wormhole: Wormhole,
               length: Vec3 -> real, rotate: (Vec3, real, Vec3) -> Vec3)
    modifies cam
    ensures Pose(cam.Basis(), cam.Place())
      == Effect(c, Pose(old(cam.Basis()), old(cam.Place())), old(cam.Tuning()), wormhole, length, rotate)
    ensures cam.Lens() == old(cam.Lens()) && cam.Tuning() == old(cam.Tuning()) && cam.view == old(cam.view)
  {
    match c {
      case StrafeBy(dt) => cam.Strafe(dt, wormhole, length);
      case WalkBy(dt) => cam.Walk(dt, wormhole, length);
      case FlyBy(dt) => cam.Fly(dt, wormhole, length);
      case LookAtCentre => cam.LookAt(cam.position, Zero, cam.up, length);
      case MoveTo(p) => cam.SetPosition(p, wormhole, length);
      case OrbitBy(cosA, sinA) => cam.SetPosition(OrbitPosition(cam.position, cosA, sinA), wormhole, length);
      case RollBy(a) => cam.Roll(a, rotate);
      case YawBy(a) => cam.Yaw(a, rotate);
      case PitchBy(a) => cam.Pitch(a, rotate);
    }
  }

  /**
   * Carry out the camera calls of one frame in order: the camera ends in the
   * pose Executed gives. Lens and tuning never change; a frame of pure turns
   * leaves the position, l and r alone; and without a LookAt an orthonormal
   * basis stays orthonormal.
   */
  method Execute(cam: Camera, commands: seq<Command>, wormhole: Wormhole,
                 length: Vec3 -> real, rotate: (Vec3, real, Vec3) -> Vec3)
    modifies cam
    ensures Pose(cam.Basis(), cam.Place())
      == Executed(commands, Pose(old(cam.Basis()), old(cam.Place())), old(cam.Tuning()), wormhole, length, rotate)
    ensures cam.Lens() == old(cam.Lens()) && cam.Tuning() == old(cam.Tuning()) && cam.view == old(cam.view)
    ensures AllTurns(commands) ==> cam.Place() == old(cam.Place())
    ensures NoLookAt(commands) && IsRotation(rotate) && Orthonormal(old(cam.Basis()))
      ==> Orthonormal(cam.Basis())
  {
    ghost var start, t := Pose(cam.Basis(), cam.Place()), cam.Tuning();
    var k := 0;
    while k < |commands|
      invariant 0 <= k <= |commands|
      invariant cam.Lens() == old(cam.Lens()) && cam.Tuning() == t && cam.view == old(cam.view)
      invariant Pose(cam.Basis(), cam.Place()) == Executed(commands[..k], start, t, wormhole, length, rotate)
    {
      Apply(cam, commands[k], wormhole, length, rotate);
      assert commands[..k + 1][..k] == commands[..k];
      k := k + 1;
    }
    assert commands[..k] == commands;
    if AllTurns(commands) {
      ExecutedTurnsKeepPlace(commands, start, t, wormhole, length, rotate);
    }
    if NoLookAt(commands) && IsRotation(rotate) && Orthonormal(start.basis) {
      ExecutedKeepsOrthonormal(commands, start, t, wormhole, length, rotate);
    }
  }

  // ---------------------------------------------------------------------
  // Resize
  // ---------------------------------------------------------------------

  /**
   * The client size after a resize request: a changed size is clamped to at
   * least 1 x 1 and otherwise taken as requested; an unchanged one is left alone.
   */
  function Resized(clientWidth: nat, clientHeight: nat, width: nat, height: nat): (r: (nat, nat))
    ensures (clientWidth, clientHeight) != (width, height) && 1 <= width ==> r.0 == width
    ensures (clientWidth, clientHeight) != (width, height) && width == 0 ==> r.0 == 1
    ensures (clientWidth, clientHeight) != (width, height) && 1 <= height ==> r.1 == height
    ensures (clientWidth, clientHeight) != (width, height) && height == 0 ==> r.1 == 1
    ensures (clientWidth, clientHeight) == (width, height) ==> r == (clientWidth, clientHeight)
  {
    if clientWidth != width || clientHeight != height then
      (if width < 1 then 1 else width, if height < 1 then 1 else height)
    else
      (clientWidth, clientHeight)
  }

  /** Repeating the same resize request changes nothing more. */
  lemma ResizedIdempotent(clientWidth: nat, clientHeight: nat, width: nat, height: nat)
    ensures var (w, h) := Resized(clientWidth, clientHeight, width, height);
      Resized(w, h, width, height) == (w, h)
  {
  }

  // ---------------------------------------------------------------------
  // The camera set-up of Init
  // ---------------------------------------------------------------------

  /** Init places the camera at InitEye looking toward InitTarget, with the world y axis up. */
  const InitEye := Vec3(2.0, 0.0, 2.0)
  const InitTarget := Vec3(-1.0, 0.0, -1.0)

  /** A vector with a non-zero dot square has a positive length. */
  lemma PositiveLength(length: Vec3 -> real, v: Vec3)
    requires IsEuclideanLength(length) && Dot(v, v) != 0.0
    ensures 0.0 < length(v)
  {
    assert length(v) * length(v) == Dot(v, v);
  }

  /** Looking level (eye and target at the same height, apart) with the world y axis up gives an orthonormal basis. */
  lemma LevelViewOrthonormal(length: Vec3 -> real, eye: Vec3, target: Vec3)
    requires IsEuclideanLength(length) && eye.y == target.y && Dot(Sub(target, eye), Sub(target, eye)) != 0.0
    ensures Orthonormal(LookAtFrame(length, eye, target, WorldY))
  {
    var d := Sub(target, eye);
    PositiveLength(length, d);
    NormalizeNonZero(length, d);
    var look := Normalize(length, d);
    var w := Cross(WorldY, look);
    assert look.y == 0.0;
    assert Dot(w, w) == look.z * look.z + look.x * look.x == 1.0;
    PositiveLength(length, w);
    LookAtFrameOrthonormal(length, eye, target, WorldY);
  }

  /** The eye Init places the camera at is off the centre. */
  lemma InitialEyeOffCentre(length: Vec3 -> real)
    requires IsEuclideanLength(length)
    ensures 0.0 < length(InitEye)
  {
    assert Dot(InitEye, InitEye) == 8.0;
    PositiveLength(length, InitEye);
  }

  /** From InitEye toward InitTarget, with y up, LookAt builds an orthonormal basis. */
  lemma InitialViewOrthonormal(length: Vec3 -> real)
    requires IsEuclideanLength(length)
    ensures Orthonormal(LookAtFrame(length, InitEye, InitTarget, WorldY))
  {
    assert Dot(Sub(InitTarget, InitEye), Sub(InitTarget, InitEye)) == 18.0;
    LevelViewOrthonormal(length, InitEye, InitTarget);
  }

  // ---------------------------------------------------------------------
  // The globals
  // ---------------------------------------------------------------------

  class Viewer {
    var useWarp: bool
    var renderWidth: nat
    var renderHeight: nat
    var clientWidth: nat
    var clientHeight: nat
    var cameraOrbiting: bool
    var cameraOverride: bool

    function CommandLineOptions(): Options
      reads this
    {
      Options.Options(clientWidth, clientHeight, useWarp)
    }

    /** The two camera flags move together. */
    predicate FlagsInStep()
      reads this
    {
      cameraOrbiting == cameraOverride
    }

    /** The initial values of the globals: 1280 x 720 window, 1920 x 1080 render target, no warp, no orbit. */
    constructor ()
      ensures CommandLineOptions() == Options.Options(1280, 720, false)
      ensures renderWidth == 1920 && renderHeight == 1080
      ensures !cameraOrbiting && !cameraOverride && FlagsInStep()
    {
      useWarp := false;
      renderWidth := 1920;
      renderHeight := 1080;
      clientWidth := 1280;
      clientHeight := 720;
      cameraOrbiting := false;
      cameraOverride := false;
    }

    /**
     * The argument loop. It fails (the source reads argv[argc]) exactly when
     * the specification function does; otherwise the globals end as it says.
     */
    method ParseCommandLineArguments(argv: seq<string>) returns (ok: bool)
      modifies this
      ensures ok <==> Parse(argv, old(CommandLineOptions())).Some?
      ensures ok ==> CommandLineOptions() == Parse(argv, old(CommandLineOptions())).value
      ensures renderWidth == old(renderWidth) && renderHeight == old(renderHeight)
      ensures cameraOrbiting == old(cameraOrbiting) && cameraOverride == old(cameraOverride)
    {
      ghost var outcome := Parse(argv, CommandLineOptions());
      var i := 0;
      while i < |argv|
        invariant 0 <= i <= |argv|
        invariant Run(argv, i, WidthTest, CommandLineOptions()) == outcome
        invariant renderWidth == old(renderWidth) && renderHeight == old(renderHeight)
        invariant cameraOrbiting == old(cameraOrbiting) && cameraOverride == old(cameraOverride)
        decreases |argv| - i
      {
        var next;
        next, ok := ParseOne(argv, i);
        if !ok {
          return;
        }
        i := next;
      }
      return true;
    }

    /**
     * One pass of the loop body from index i: the three tests in order. It
     * fails when a width or height flag is the last argument; otherwise the
     * next pass starts at the returned index.
     */
    method ParseOne(argv: seq<string>, i: nat) returns (next: nat, ok: bool)
      requires i < |argv|
      modifies this
      ensures ok ==> i < next <= |argv|
      ensures Run(argv, i, WidthTest, old(CommandLineOptions()))
        == if ok then Run(argv, next, WidthTest, CommandLineOptions()) else None
      ensures renderWidth == old(renderWidth) && renderHeight == old(renderHeight)
      ensures cameraOrbiting == old(cameraOrbiting) && cameraOverride == old(cameraOverride)
    {
      var j := i;
      ghost var o0 := CommandLineOptions();
      if IsWidthFlag(argv[j]) {
        j := j + 1;
        if j == |argv| {
          return j, false;
        }
        clientWidth := ArgValue(argv[j]);
      }
      assert Run(argv, i, WidthTest, o0) == Run(argv, j, HeightTest, CommandLineOptions());
      ghost var j1, o1 := j, CommandLineOptions();
      if IsHeightFlag(argv[j]) {
        j := j + 1;
        if j == |argv| {
          return j, false;
        }
        clientHeight := ArgValue(argv[j]);
      }
      assert Run(argv, j1, HeightTest, o1) == Run(argv, j, WarpTest, CommandLineOptions());
      ghost var o2 := CommandLineOptions();
      if IsWarpFlag(argv[j]) {
        useWarp := true;
      }
      assert Run(argv, j, WarpTest, o2) == Run(argv, j + 1, WidthTest, CommandLineOptions());
      return j + 1, true;
    }

    /**
     * The camera set-up of Init: look from InitEye toward InitTarget with y
     * up, then the render resolution with a 65 degree field of view. The
     * camera's r gets its first value here. From a fresh camera (l = 1) the
     * camera ends on the positive sheet with l = r; InitialViewOrthonormal
     * shows the basis it gets is orthonormal.
     */
    method InitCamera(cam: Camera, length: Vec3 -> real)
      requires 0 < renderWidth && 0 < renderHeight
      modifies cam
      ensures cam.Basis() == LookAtFrame(length, InitEye, InitTarget, WorldY)
      ensures cam.Place() == Placement(InitEye, length(InitEye) * Sign(old(cam.l)) as real, length(InitEye))
      ensures cam.Lens() == ResolutionFOV(renderWidth, renderHeight, 65.0)
      ensures cam.Tuning() == old(cam.Tuning()) && cam.view == old(cam.view)
      ensures 0.0 < old(cam.l) ==> cam.l == cam.r && cam.r == length(cam.position)
    {
      cam.LookAt(InitEye, InitTarget, WorldY, length);
      cam.SetResolutionFOV(renderWidth, renderHeight, 65.0);
    }

    /**
     * One frame of camera control: the flags end as Dispatch says and the
     * camera receives Dispatch's calls in order.
     */
    method UpdateCamera(cam: Camera, input: Input, wormhole: Wormhole, length: Vec3 -> real,
                        rotate: (Vec3, real, Vec3) -> Vec3, cos: real -> real, sin: real -> real)
      requires |input.keys| == 256
      modifies this, cam
      ensures var f := Dispatch(input, old(cameraOverride), old(cameraOrbiting), wormhole, cos, sin);
        cameraOverride == f.positionOverride && cameraOrbiting == f.orbiting
      ensures old(FlagsInStep()) ==> FlagsInStep()
      ensures CommandLineOptions() == old(CommandLineOptions()) && renderWidth == old(renderWidth) && renderHeight == old(renderHeight)
      ensures Pose(cam.Basis(), cam.Place())
        == Executed(Dispatch(input, old(cameraOverride), old(cameraOrbiting), wormhole, cos, sin).Commands(),
                    Pose(old(cam.Basis()), old(cam.Place())), old(cam.Tuning()), wormhole, length, rotate)
      ensures cam.Lens() == old(cam.Lens()) && cam.Tuning() == old(cam.Tuning()) && cam.view == old(cam.view)
      ensures IsRotation(rotate) && Orthonormal(old(cam.Basis())) && (old(cameraOverride) || !Down(input.keys, KeyF1))
        ==> Orthonormal(cam.Basis())
    {
      var f := Dispatch(input, cameraOverride, cameraOrbiting, wormhole, cos, sin);
      if cameraOverride == cameraOrbiting {
        FlagsToggleTogether(input, cameraOverride, cameraOrbiting, wormhole, cos, sin);
      }
      if cameraOverride || !Down(input.keys, KeyF1) {
        FrameWithoutLookAt(input, cameraOverride, cameraOrbiting, wormhole, cos, sin);
      }
      cameraOverride := f.positionOverride;
      cameraOrbiting := f.orbiting;
      var commands := f.Commands();
      Execute(cam, commands, wormhole, length, rotate);
    }

    method Resize(width: nat, height: nat)
      modifies this
      ensures (clientWidth, clientHeight) == Resized(old(clientWidth), old(clientHeight), width, height)
      ensures useWarp == old(useWarp) && renderWidth == old(renderWidth) && renderHeight == old(renderHeight)
      ensures cameraOrbiting == old(cameraOrbiting) && cameraOverride == old(cameraOverride)
    {
      if clientWidth != width || clientHeight != height {
        clientWidth := if width < 1 then 1 else width;
        clientHeight := if height < 1 then 1 else height;
      }
    }
  }
}
